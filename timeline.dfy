/** The timeline builder (`CompPlayer.prepare_track`): a pattern cycled over
    a run of bars, each note turned into a note-on at its start and a
    note-off at its end, the chord placeholder expanded into the chord's
    keys, and the whole list sorted. The exercise enters only through the
    fields the builder reads, gathered in a Sheet. */
module Timeline {
  import opened Builtins
  import opened Midi
  import opened Tracks
  import opened Ordering
  import Exercises

  /** What the builder reads from the exercise: the bar and whole-note
      durations at tempo 1, the number of exercise bars, and the offsets
      (from middle C) of the chord to play in each exercise bar. */
  datatype Sheet = Sheet(barDuration: real, wholeNoteDuration: real, length: int, chordNotes: int -> seq<int>)

  /** One sounded key: channel, key, velocity, start and end times. */
  datatype Played = Played(channel: int, key: int, velocity: real, on: real, off: real)

  function OnEvent(q: Played): Event {
    Event(q.on, NoteOn(q.channel, q.key, q.velocity))
  }

  function OffEvent(q: Played): Event {
    Event(q.off, NoteOff(q.channel, q.key, 0.0))
  }

  /** Each sounded key, in order, as its note-on followed by its note-off. */
  function Events(ps: seq<Played>): seq<Event>
    decreases |ps|
  {
    if ps == [] then [] else Events(ps[..|ps| - 1]) + [OnEvent(ps[|ps| - 1]), OffEvent(ps[|ps| - 1])]
  }

  /** Two events per sounded key: entry 2i is the note-on of key i and entry
      2i+1 its note-off, same channel and key. */
  lemma {:induction false} EventsPairs(ps: seq<Played>)
    ensures |Events(ps)| == 2 * |ps|
    ensures forall i :: 0 <= i < |ps| ==> Events(ps)[2 * i] == OnEvent(ps[i]) && Events(ps)[2 * i + 1] == OffEvent(ps[i])
    decreases |ps|
  {
    if ps != [] {
      var init := ps[..|ps| - 1];
      EventsPairs(init);
      forall i | 0 <= i < |ps|
        ensures Events(ps)[2 * i] == OnEvent(ps[i]) && Events(ps)[2 * i + 1] == OffEvent(ps[i])
      {
        if i < |init| {
          assert init[i] == ps[i];
        }
      }
    }
  }

  lemma {:induction false} EventsConcat(a: seq<Played>, b: seq<Played>)
    ensures Events(a + b) == Events(a) + Events(b)
    decreases |b|
  {
    if b == [] {
      assert a + b == a;
    } else {
      var init := b[..|b| - 1];
      assert (a + b)[..|a + b| - 1] == a + init;
      assert (a + b)[|a + b| - 1] == b[|b| - 1];
      EventsConcat(a, init);
    }
  }

  /** An event is generated iff it is the note-on or the note-off of one of
      the sounded keys. */
  lemma {:induction false} EventsMembers(ps: seq<Played>, x: Event)
    ensures x in Events(ps) <==> exists k :: 0 <= k < |ps| && (x == OnEvent(ps[k]) || x == OffEvent(ps[k]))
  {
    EventsPairs(ps);
    if x in Events(ps) {
      EventFrom(ps, x);
    }
  }

  lemma {:induction false} EventFrom(ps: seq<Played>, x: Event)
    requires x in Events(ps)
    requires |Events(ps)| == 2 * |ps|
    requires forall i :: 0 <= i < |ps| ==> Events(ps)[2 * i] == OnEvent(ps[i]) && Events(ps)[2 * i + 1] == OffEvent(ps[i])
    ensures exists k :: 0 <= k < |ps| && (x == OnEvent(ps[k]) || x == OffEvent(ps[k]))
  {
    var idx :| 0 <= idx < |Events(ps)| && Events(ps)[idx] == x;
    var k := idx / 2;
    assert idx == 2 * k || idx == 2 * k + 1;
    assert Events(ps)[2 * k] == OnEvent(ps[k]) && Events(ps)[2 * k + 1] == OffEvent(ps[k]);
  }

  function ChordKeys(chord: seq<int>): seq<int> {
    seq(|chord|, i requires 0 <= i < |chord| => MIDDLE_C + chord[i])
  }

  /** The keys a pattern note sounds in exercise bar exBar: its own key, or
      for the chord placeholder the chord's keys above middle C, none
      outside the exercise. */
  function Pitches(n: Note, exBar: int, sheet: Sheet): (ks: seq<int>)
    ensures n.pitch.Key? ==> |ks| == 1
    ensures n.pitch.Chord? ==> |ks| == if 0 <= exBar < sheet.length then |sheet.chordNotes(exBar)| else 0
  {
    match n.pitch
    case Key(k) => [k]
    case Chord => if exBar < 0 || exBar >= sheet.length then [] else ChordKeys(sheet.chordNotes(exBar))
  }

  function NotePlayed(n: Note, exBar: int, sheet: Sheet, on: real, whnD: real): seq<Played> {
    var ks := Pitches(n, exBar, sheet);
    seq(|ks|, i requires 0 <= i < |ks| => Played(n.channel, ks[i], n.velocity, on, on + n.duration * whnD))
  }

  /** A key note sounds once; a chord note sounds each chord key, from middle
      C, inside the exercise and nothing outside it; all of them start at the
      step's time and last the note's duration in whole notes. */
  lemma {:induction false} NoteSounds(n: Note, exBar: int, sheet: Sheet, on: real, whnD: real)
    ensures n.pitch.Key? ==>
              NotePlayed(n, exBar, sheet, on, whnD) == [Played(n.channel, n.pitch.n, n.velocity, on, on + n.duration * whnD)]
    ensures n.pitch.Chord? && (exBar < 0 || exBar >= sheet.length) ==> NotePlayed(n, exBar, sheet, on, whnD) == []
    ensures n.pitch.Chord? && 0 <= exBar < sheet.length ==>
              var chord := sheet.chordNotes(exBar);
              var ps := NotePlayed(n, exBar, sheet, on, whnD);
              && |ps| == |chord|
              && forall i :: 0 <= i < |ps| ==>
                   ps[i] == Played(n.channel, MIDDLE_C + chord[i], n.velocity, on, on + n.duration * whnD)
  {
  }

  function NotesPlayed(notes: seq<Note>, exBar: int, sheet: Sheet, on: real, whnD: real): seq<Played>
    decreases |notes|
  {
    if notes == [] then []
    else NotesPlayed(notes[..|notes| - 1], exBar, sheet, on, whnD) + NotePlayed(notes[|notes| - 1], exBar, sheet, on, whnD)
  }

  /** `p_start_time + (song_bar + bar_time) * bar_d`. */
  function OnTime(p0: real, songBar: int, offset: real, barD: real): real {
    p0 + (songBar as real + offset) * barD
  }

  function StepsPlayed(steps: seq<Step>, songBar: int, sheet: Sheet, p0: real, barD: real, whnD: real): seq<Played>
    decreases |steps|
  {
    if steps == [] then []
    else
      var last := steps[|steps| - 1];
      StepsPlayed(steps[..|steps| - 1], songBar, sheet, p0, barD, whnD)
        + NotesPlayed(last.notes, songBar - Exercises.LEAD_IN, sheet, OnTime(p0, songBar, last.offset, barD), whnD)
  }

  /** The pattern bar played as bar b of a run: `pattern[bar % pattern_bars]`. */
  function BarSteps(p: Pattern, b: nat): (steps: Bar)
    requires |p| > 0
    ensures steps in p
  {
    p[b % |p|]
  }

  /** Every bar a run of a well-formed pattern plays is well formed. */
  lemma {:induction false} CycledBar(p: Pattern, b: nat)
    requires WellFormed(p)
    ensures WellFormedBar(BarSteps(p, b)) && DrumBar(BarSteps(p, b))
  {
    var k := b % |p|;
    assert WellFormedBar(p[k]) && DrumBar(p[k]);
  }

  /** Bar b of a run starting at song bar `start`. */
  function BarPlayed(p: Pattern, b: nat, start: int, sheet: Sheet, p0: real, barD: real, whnD: real): seq<Played>
    requires |p| > 0
  {
    StepsPlayed(BarSteps(p, b), start + b, sheet, p0, barD, whnD)
  }

  /** Bars 0..bars-1 of the run, in order. */
  function BarsPlayed(p: Pattern, bars: nat, start: int, sheet: Sheet, p0: real, barD: real, whnD: real): seq<Played>
    requires |p| > 0
    decreases bars
  {
    if bars == 0 then []
    else BarsPlayed(p, bars - 1, start, sheet, p0, barD, whnD) + BarPlayed(p, bars - 1, start, sheet, p0, barD, whnD)
  }

  /** The note a sounded key of a step comes from. */
  lemma {:induction false} NoteFrom(notes: seq<Note>, exBar: int, sheet: Sheet, on: real, whnD: real, q: Played)
    returns (j: int)
    requires q in NotesPlayed(notes, exBar, sheet, on, whnD)
    ensures 0 <= j < |notes| && q in NotePlayed(notes[j], exBar, sheet, on, whnD)
    decreases |notes|
  {
    var init := notes[..|notes| - 1];
    if q in NotesPlayed(init, exBar, sheet, on, whnD) {
      j := NoteFrom(init, exBar, sheet, on, whnD, q);
      assert notes[j] == init[j];
    } else {
      j := |notes| - 1;
    }
  }

  /** Every key a note of a step sounds is sounded by the step. */
  lemma {:induction false} NoteContains(notes: seq<Note>, exBar: int, sheet: Sheet, on: real, whnD: real, q: Played, j: int)
    requires 0 <= j < |notes| && q in NotePlayed(notes[j], exBar, sheet, on, whnD)
    ensures q in NotesPlayed(notes, exBar, sheet, on, whnD)
    decreases |notes|
  {
    var init := notes[..|notes| - 1];
    if j < |init| {
      assert init[j] == notes[j];
      NoteContains(init, exBar, sheet, on, whnD, q, j);
    }
  }

  /** The step a sounded key of a bar comes from, at that step's time. */
  lemma {:induction false} StepFrom(steps: seq<Step>, songBar: int, sheet: Sheet, p0: real, barD: real, whnD: real, q: Played)
    returns (i: int)
    requires q in StepsPlayed(steps, songBar, sheet, p0, barD, whnD)
    ensures 0 <= i < |steps|
    ensures q in NotesPlayed(steps[i].notes, songBar - Exercises.LEAD_IN, sheet, OnTime(p0, songBar, steps[i].offset, barD), whnD)
    decreases |steps|
  {
    var init := steps[..|steps| - 1];
    if q in StepsPlayed(init, songBar, sheet, p0, barD, whnD) {
      i := StepFrom(init, songBar, sheet, p0, barD, whnD, q);
      assert steps[i] == init[i];
    } else {
      i := |steps| - 1;
    }
  }

  /** Every key a step of a bar sounds is sounded by the bar. */
  lemma {:induction false} StepContains(steps: seq<Step>, songBar: int, sheet: Sheet, p0: real, barD: real, whnD: real, q: Played, i: int)
    requires 0 <= i < |steps|
    requires q in NotesPlayed(steps[i].notes, songBar - Exercises.LEAD_IN, sheet, OnTime(p0, songBar, steps[i].offset, barD), whnD)
    ensures q in StepsPlayed(steps, songBar, sheet, p0, barD, whnD)
    decreases |steps|
  {
    var init := steps[..|steps| - 1];
    if i < |init| {
      assert init[i] == steps[i];
      StepContains(init, songBar, sheet, p0, barD, whnD, q, i);
    }
  }

  /** A sounded key of the run comes from one of its bars. */
  lemma {:induction false} BarsMembers(p: Pattern, bars: nat, start: int, sheet: Sheet, p0: real, barD: real, whnD: real, q: Played)
    requires |p| > 0
    ensures q in BarsPlayed(p, bars, start, sheet, p0, barD, whnD) <==>
            exists b :: 0 <= b < bars && q in BarPlayed(p, b, start, sheet, p0, barD, whnD)
  {
    if q in BarsPlayed(p, bars, start, sheet, p0, barD, whnD) {
      var b := BarsSource(p, bars, start, sheet, p0, barD, whnD, q);
    }
    if exists b :: 0 <= b < bars && q in BarPlayed(p, b, start, sheet, p0, barD, whnD) {
      var b :| 0 <= b < bars && q in BarPlayed(p, b, start, sheet, p0, barD, whnD);
      BarsContain(p, bars, start, sheet, p0, barD, whnD, q, b);
    }
  }

  /** The bar a sounded key of the run comes from. */
  lemma {:induction false} BarsSource(p: Pattern, bars: nat, start: int, sheet: Sheet, p0: real, barD: real, whnD: real, q: Played)
    returns (b: nat)
    requires |p| > 0 && q in BarsPlayed(p, bars, start, sheet, p0, barD, whnD)
    ensures b < bars && q in BarPlayed(p, b, start, sheet, p0, barD, whnD)
    decreases bars
  {
    var prev := BarsPlayed(p, bars - 1, start, sheet, p0, barD, whnD);
    if q in prev {
      b := BarsSource(p, bars - 1, start, sheet, p0, barD, whnD, q);
    } else {
      b := bars - 1;
    }
  }

  /** Every key a bar sounds is sounded by the run. */
  lemma {:induction false} BarsContain(p: Pattern, bars: nat, start: int, sheet: Sheet, p0: real, barD: real, whnD: real, q: Played, b: nat)
    requires |p| > 0 && b < bars && q in BarPlayed(p, b, start, sheet, p0, barD, whnD)
    ensures q in BarsPlayed(p, bars, start, sheet, p0, barD, whnD)
    decreases bars
  {
    if b < bars - 1 {
      BarsContain(p, bars - 1, start, sheet, p0, barD, whnD, q, b);
    }
  }

  /** `q` is sounded by note j of step i of bar b of the run. */
  predicate PlayedBy(p: Pattern, start: int, sheet: Sheet, p0: real, barD: real, whnD: real, q: Played, b: nat, i: int, j: int)
    requires |p| > 0
  {
    && 0 <= i < |BarSteps(p, b)|
    && 0 <= j < |BarSteps(p, b)[i].notes|
    && q in NotePlayed(BarSteps(p, b)[i].notes[j], start + b - Exercises.LEAD_IN, sheet,
                       OnTime(p0, start + b, BarSteps(p, b)[i].offset, barD), whnD)
  }

  /** The keys bar b sounds are exactly those its notes sound. */
  lemma {:induction false} BarMembers(p: Pattern, b: nat, start: int, sheet: Sheet, p0: real, barD: real, whnD: real, q: Played)
    requires |p| > 0
    ensures q in BarPlayed(p, b, start, sheet, p0, barD, whnD) <==>
            exists i, j :: PlayedBy(p, start, sheet, p0, barD, whnD, q, b, i, j)
  {
    if q in BarPlayed(p, b, start, sheet, p0, barD, whnD) {
      var i, j := BarSource(p, b, start, sheet, p0, barD, whnD, q);
    }
    if exists i, j :: PlayedBy(p, start, sheet, p0, barD, whnD, q, b, i, j) {
      var i, j :| PlayedBy(p, start, sheet, p0, barD, whnD, q, b, i, j);
      BarSounds(p, b, start, sheet, p0, barD, whnD, q, i, j);
    }
  }

  /** The step and note of bar b that sound one of its keys. */
  lemma {:induction false} BarSource(p: Pattern, b: nat, start: int, sheet: Sheet, p0: real, barD: real, whnD: real, q: Played)
    returns (i: int, j: int)
    requires |p| > 0 && q in BarPlayed(p, b, start, sheet, p0, barD, whnD)
    ensures PlayedBy(p, start, sheet, p0, barD, whnD, q, b, i, j)
  {
    var steps := BarSteps(p, b);
    i := StepFrom(steps, start + b, sheet, p0, barD, whnD, q);
    j := NoteFrom(steps[i].notes, start + b - Exercises.LEAD_IN, sheet, OnTime(p0, start + b, steps[i].offset, barD), whnD, q);
  }

  /** Each note of bar b sounds its keys in the bar. */
  lemma {:induction false} BarSounds(p: Pattern, b: nat, start: int, sheet: Sheet, p0: real, barD: real, whnD: real, q: Played, i: int, j: int)
    requires |p| > 0 && PlayedBy(p, start, sheet, p0, barD, whnD, q, b, i, j)
    ensures q in BarPlayed(p, b, start, sheet, p0, barD, whnD)
  {
    var steps := BarSteps(p, b);
    var exBar := start + b - Exercises.LEAD_IN;
    NoteContains(steps[i].notes, exBar, sheet, OnTime(p0, start + b, steps[i].offset, barD), whnD, q, j);
    StepContains(steps, start + b, sheet, p0, barD, whnD, q, i);
  }

  /** The keys the run sounds are exactly those its notes sound, bar by bar,
      step by step. */
  lemma {:induction false} Origin(p: Pattern, bars: nat, start: int, sheet: Sheet, p0: real, barD: real, whnD: real, q: Played)
    requires |p| > 0
    ensures q in BarsPlayed(p, bars, start, sheet, p0, barD, whnD) <==>
            exists b: nat, i, j :: b < bars && PlayedBy(p, start, sheet, p0, barD, whnD, q, b, i, j)
  {
    BarsMembers(p, bars, start, sheet, p0, barD, whnD, q);
    if q in BarsPlayed(p, bars, start, sheet, p0, barD, whnD) {
      var b :| 0 <= b < bars && q in BarPlayed(p, b, start, sheet, p0, barD, whnD);
      BarMembers(p, b, start, sheet, p0, barD, whnD, q);
    }
    if exists b: nat, i, j :: b < bars && PlayedBy(p, start, sheet, p0, barD, whnD, q, b, i, j) {
      var b: nat, i, j :| b < bars && PlayedBy(p, start, sheet, p0, barD, whnD, q, b, i, j);
      BarMembers(p, b, start, sheet, p0, barD, whnD, q);
    }
  }

  /** A sounded key has its note's channel and velocity, starts at its
      step's time `p_start_time + (song_bar + offset) * bar_d` and lasts the
      note's duration in whole notes; a key note sounds its own key and a
      chord note, only inside the exercise, a key of the bar's chord. */
  lemma {:induction false} PlayedTimes(p: Pattern, start: int, sheet: Sheet, p0: real, barD: real, whnD: real, q: Played, b: nat, i: int, j: int)
    requires |p| > 0 && PlayedBy(p, start, sheet, p0, barD, whnD, q, b, i, j)
    ensures var step := BarSteps(p, b)[i];
            var n := step.notes[j];
            && q.on == OnTime(p0, start + b, step.offset, barD)
            && q.off == q.on + n.duration * whnD
            && q.channel == n.channel && q.velocity == n.velocity
            && (n.pitch.Key? ==> q.key == n.pitch.n)
            && (n.pitch.Chord? ==> 0 <= start + b - Exercises.LEAD_IN < sheet.length &&
                                   q.key in ChordKeys(sheet.chordNotes(start + b - Exercises.LEAD_IN)))
  {
  }

  /** The bar, step and note that sound a key of the run, and the key's
      times. */
  lemma {:induction false} KeyOrigin(p: Pattern, bars: nat, start: int, sheet: Sheet, p0: real, barD: real, whnD: real, q: Played)
    returns (b: nat, i: int, j: int)
    requires |p| > 0 && q in BarsPlayed(p, bars, start, sheet, p0, barD, whnD)
    ensures b < bars && 0 <= i < |BarSteps(p, b)| && 0 <= j < |BarSteps(p, b)[i].notes|
    ensures q.on == OnTime(p0, start + b, BarSteps(p, b)[i].offset, barD)
    ensures q.off == q.on + BarSteps(p, b)[i].notes[j].duration * whnD
  {
    Origin(p, bars, start, sheet, p0, barD, whnD, q);
    b, i, j :| b < bars && PlayedBy(p, start, sheet, p0, barD, whnD, q, b, i, j);
    PlayedTimes(p, start, sheet, p0, barD, whnD, q, b, i, j);
  }

  /** The number of notes in a bar. */
  function NoteTotal(bar: Bar): (n: nat)
    ensures bar == [] ==> n == 0
    decreases |bar|
  {
    if bar == [] then 0 else NoteTotal(bar[..|bar| - 1]) + |bar[|bar| - 1].notes|
  }

  /** The number of notes in bars 0..bars-1 of a run. */
  function RunNoteTotal(p: Pattern, bars: nat): (n: nat)
    requires |p| > 0
    decreases bars
  {
    if bars == 0 then 0 else RunNoteTotal(p, bars - 1) + NoteTotal(BarSteps(p, bars - 1))
  }

  /** A drum note sounds exactly one key. */
  lemma {:induction false} DrumNotesCount(notes: seq<Note>, exBar: int, sheet: Sheet, on: real, whnD: real)
    requires forall j :: 0 <= j < |notes| ==> IsDrumNote(notes[j])
    ensures |NotesPlayed(notes, exBar, sheet, on, whnD)| == |notes|
    decreases |notes|
  {
    if notes != [] {
      DrumNotesCount(notes[..|notes| - 1], exBar, sheet, on, whnD);
    }
  }

  lemma {:induction false} DrumBarCount(steps: Bar, songBar: int, sheet: Sheet, p0: real, barD: real, whnD: real)
    requires DrumBar(steps)
    ensures |StepsPlayed(steps, songBar, sheet, p0, barD, whnD)| == NoteTotal(steps)
    decreases |steps|
  {
    if steps != [] {
      var init := steps[..|steps| - 1];
      var last := steps[|steps| - 1];
      assert DrumBar(init) by {
        forall i, j | 0 <= i < |init| && 0 <= j < |init[i].notes|
          ensures IsDrumNote(init[i].notes[j])
        {
          assert init[i] == steps[i];
        }
      }
      DrumBarCount(init, songBar, sheet, p0, barD, whnD);
      DrumNotesCount(last.notes, songBar - Exercises.LEAD_IN, sheet, OnTime(p0, songBar, last.offset, barD), whnD);
    }
  }

  /** A well-formed drum pattern sounds one key per note. */
  lemma {:induction false} DrumRunKeys(p: Pattern, bars: nat, start: int, sheet: Sheet, p0: real, barD: real, whnD: real)
    requires WellFormed(p)
    ensures |BarsPlayed(p, bars, start, sheet, p0, barD, whnD)| == RunNoteTotal(p, bars)
    decreases bars
  {
    if bars > 0 {
      DrumRunKeys(p, bars - 1, start, sheet, p0, barD, whnD);
      CycledBar(p, bars - 1);
      DrumBarCount(BarSteps(p, bars - 1), start + (bars - 1), sheet, p0, barD, whnD);
    }
  }

  /** So a run of a well-formed drum pattern holds two events per note of
      its bars. */
  lemma {:induction false} DrumRunCount(p: Pattern, bars: nat, start: int, sheet: Sheet, p0: real, barD: real, whnD: real)
    requires WellFormed(p)
    ensures Sounded(p, bars, start, sheet) == RunNoteTotal(p, bars)
    ensures |Events(BarsPlayed(p, bars, start, sheet, p0, barD, whnD))| == 2 * RunNoteTotal(p, bars)
  {
    RunEvents(p, bars, start, sheet, p0, barD, whnD);
    RunKeys(p, bars, start, sheet, p0, barD, whnD);
    DrumRunKeys(p, bars, start, sheet, p0, barD, whnD);
  }

  /** The number of keys the notes of a step sound in exercise bar exBar:
      one per key note, and for the chord placeholder one per chord note
      inside the exercise and none outside it. */
  function NotesKeys(notes: seq<Note>, exBar: int, sheet: Sheet): nat
    decreases |notes|
  {
    if notes == [] then 0 else NotesKeys(notes[..|notes| - 1], exBar, sheet) + |Pitches(notes[|notes| - 1], exBar, sheet)|
  }

  /** The number of keys the steps of a bar sound as song bar songBar. */
  function StepsKeys(steps: seq<Step>, songBar: int, sheet: Sheet): nat
    decreases |steps|
  {
    if steps == [] then 0
    else StepsKeys(steps[..|steps| - 1], songBar, sheet) + NotesKeys(steps[|steps| - 1].notes, songBar - Exercises.LEAD_IN, sheet)
  }

  /** The number of keys bars 0..bars-1 of a run starting at song bar
      `start` sound. */
  function Sounded(p: Pattern, bars: nat, start: int, sheet: Sheet): nat
    requires |p| > 0
    decreases bars
  {
    if bars == 0 then 0 else Sounded(p, bars - 1, start, sheet) + StepsKeys(BarSteps(p, bars - 1), start + (bars - 1), sheet)
  }

  lemma {:induction false} NotesKeysCount(notes: seq<Note>, exBar: int, sheet: Sheet, on: real, whnD: real)
    ensures |NotesPlayed(notes, exBar, sheet, on, whnD)| == NotesKeys(notes, exBar, sheet)
    decreases |notes|
  {
    if notes != [] {
      NotesKeysCount(notes[..|notes| - 1], exBar, sheet, on, whnD);
    }
  }

  lemma {:induction false} StepsKeysCount(steps: seq<Step>, songBar: int, sheet: Sheet, p0: real, barD: real, whnD: real)
    ensures |StepsPlayed(steps, songBar, sheet, p0, barD, whnD)| == StepsKeys(steps, songBar, sheet)
    decreases |steps|
  {
    if steps != [] {
      var last := steps[|steps| - 1];
      StepsKeysCount(steps[..|steps| - 1], songBar, sheet, p0, barD, whnD);
      NotesKeysCount(last.notes, songBar - Exercises.LEAD_IN, sheet, OnTime(p0, songBar, last.offset, barD), whnD);
    }
  }

  /** A run of any pattern sounds Sounded keys, whatever the times, with
      chord placeholders counted by the chord of each exercise bar they
      fall in. */
  lemma {:induction false} RunKeys(p: Pattern, bars: nat, start: int, sheet: Sheet, p0: real, barD: real, whnD: real)
    requires |p| > 0
    ensures |BarsPlayed(p, bars, start, sheet, p0, barD, whnD)| == Sounded(p, bars, start, sheet)
    decreases bars
  {
    if bars > 0 {
      RunKeys(p, bars - 1, start, sheet, p0, barD, whnD);
      StepsKeysCount(BarSteps(p, bars - 1), start + (bars - 1), sheet, p0, barD, whnD);
    }
  }

  /** So a run of any pattern holds two events per key it sounds. */
  lemma {:induction false} RunEvents(p: Pattern, bars: nat, start: int, sheet: Sheet, p0: real, barD: real, whnD: real)
    requires |p| > 0
    ensures |Events(BarsPlayed(p, bars, start, sheet, p0, barD, whnD))| == 2 * Sounded(p, bars, start, sheet)
  {
    RunKeys(p, bars, start, sheet, p0, barD, whnD);
    EventsPairs(BarsPlayed(p, bars, start, sheet, p0, barD, whnD));
  }

  /** A single-bar pattern played over n bars repeats its bar n times. */
  lemma {:induction false} SingleBarTotal(p: Pattern, bars: nat)
    requires |p| == 1
    ensures RunNoteTotal(p, bars) == bars * NoteTotal(p[0])
    decreases bars
  {
    if bars > 0 {
      SingleBarTotal(p, bars - 1);
      assert BarSteps(p, bars - 1) == p[0];
    }
  }

  /** The events prepare_track appends, in the order it appends them. A zero
      tempo, or an empty pattern with bars to fill, is a ZeroDivisionError. */
  function Generated(sheet: Sheet, tempo: real, p0: real, p: Pattern, bars: int, start: int): (r: Result<seq<Event>>)
    ensures r.Ok? <==> tempo != 0.0 && (bars <= 0 || |p| > 0)
    ensures r.Err? ==> r.error == ZeroDivisionError
  {
    if tempo == 0.0 then Err(ZeroDivisionError)
    else if bars <= 0 then Ok([])
    else if |p| == 0 then Err(ZeroDivisionError)
    else Ok(Events(BarsPlayed(p, bars, start, sheet, p0, sheet.barDuration / tempo, sheet.wholeNoteDuration / tempo)))
  }

  /** What prepare_track returns: the generated events, sorted. */
  function Prepared(sheet: Sheet, tempo: real, p0: real, p: Pattern, bars: int, start: int): (r: Result<seq<Event>>)
    ensures r.Ok? <==> tempo != 0.0 && (bars <= 0 || |p| > 0)
    ensures r.Err? ==> r.error == ZeroDivisionError
    ensures r.Ok? ==> Sorted(r.value) && multiset(r.value) == multiset(Generated(sheet, tempo, p0, p, bars, start).value)
  {
    match Generated(sheet, tempo, p0, p, bars, start)
    case Err(e) => Err(e)
    case Ok(evs) => Ok(SortEvents(evs))
  }

  /** Sorting keeps the number of events. */
  lemma {:induction false} PreparedLength(sheet: Sheet, tempo: real, p0: real, p: Pattern, bars: nat, start: int)
    requires tempo != 0.0 && |p| > 0
    ensures Prepared(sheet, tempo, p0, p, bars, start).Ok?
    ensures |Prepared(sheet, tempo, p0, p, bars, start).value|
         == |Events(BarsPlayed(p, bars, start, sheet, p0, sheet.barDuration / tempo, sheet.wholeNoteDuration / tempo))|
  {
  }

  lemma {:induction false} EventsSnoc(ps: seq<Played>, c: int)
    requires 0 <= c < |ps|
    ensures Events(ps[..c + 1]) == Events(ps[..c]) + [OnEvent(ps[c]), OffEvent(ps[c])]
  {
    assert ps[..c + 1][..c] == ps[..c];
  }

  /** The inner loop body for one pattern note: append a note-on/note-off
      pair for each key it sounds; a chord outside the exercise is skipped. */
  method AppendNote(events: seq<Event>, n: Note, exBar: int, sheet: Sheet, on: real, whnD: real)
    returns (out: seq<Event>)
    ensures out == events + Events(NotePlayed(n, exBar, sheet, on, whnD))
  {
    var off := on + n.duration * whnD;
    ghost var ps := NotePlayed(n, exBar, sheet, on, whnD);
    match n.pitch {
      case Chord =>
        if exBar < 0 || exBar >= sheet.length {
          return events;
        }
        var chord := sheet.chordNotes(exBar);
        assert |ps| == |chord|;
        out := events;
        var c := 0;
        while c < |chord|
          invariant 0 <= c <= |chord|
          invariant out == events + Events(ps[..c])
        {
          var q := Played(n.channel, MIDDLE_C + chord[c], n.velocity, on, off);
          assert q == ps[c];
          ghost var done := Events(ps[..c]);
          out := out + [OnEvent(q), OffEvent(q)];
          EventsSnoc(ps, c);
          Assoc(events, done, [OnEvent(q), OffEvent(q)]);
          c := c + 1;
        }
        assert ps[..c] == ps;
      case Key(k) =>
        var q := Played(n.channel, k, n.velocity, on, off);
        out := events + [OnEvent(q), OffEvent(q)];
        assert ps == [q];
        assert ps[..0] == [];
    }
  }

  lemma {:induction false} Assoc(a: seq<Event>, b: seq<Event>, c: seq<Event>)
    ensures (a + b) + c == a + (b + c)
  {
  }

  lemma {:induction false} NotesSnoc(notes: seq<Note>, j: int, exBar: int, sheet: Sheet, on: real, whnD: real)
    requires 0 <= j < |notes|
    ensures Events(NotesPlayed(notes[..j + 1], exBar, sheet, on, whnD))
         == Events(NotesPlayed(notes[..j], exBar, sheet, on, whnD)) + Events(NotePlayed(notes[j], exBar, sheet, on, whnD))
  {
    assert notes[..j + 1][..j] == notes[..j];
    EventsConcat(NotesPlayed(notes[..j], exBar, sheet, on, whnD), NotePlayed(notes[j], exBar, sheet, on, whnD));
  }

  lemma {:induction false} StepsSnoc(steps: seq<Step>, i: int, songBar: int, sheet: Sheet, p0: real, barD: real, whnD: real)
    requires 0 <= i < |steps|
    ensures Events(StepsPlayed(steps[..i + 1], songBar, sheet, p0, barD, whnD))
         == Events(StepsPlayed(steps[..i], songBar, sheet, p0, barD, whnD))
            + Events(NotesPlayed(steps[i].notes, songBar - Exercises.LEAD_IN, sheet, OnTime(p0, songBar, steps[i].offset, barD), whnD))
  {
    assert steps[..i + 1][..i] == steps[..i];
    EventsConcat(StepsPlayed(steps[..i], songBar, sheet, p0, barD, whnD),
                 NotesPlayed(steps[i].notes, songBar - Exercises.LEAD_IN, sheet, OnTime(p0, songBar, steps[i].offset, barD), whnD));
  }

  lemma {:induction false} NextBar(p: Pattern, bar: nat, start: int, sheet: Sheet, p0: real, barD: real, whnD: real,
                steps: seq<Step>, songBar: int, before: seq<Event>, after: seq<Event>)
    requires |p| > 0 && steps == BarSteps(p, bar) && songBar == start + bar
    requires before == Events(BarsPlayed(p, bar, start, sheet, p0, barD, whnD))
    requires after == before + Events(StepsPlayed(steps, songBar, sheet, p0, barD, whnD))
    ensures after == Events(BarsPlayed(p, bar + 1, start, sheet, p0, barD, whnD))
  {
    var prefix := BarsPlayed(p, bar, start, sheet, p0, barD, whnD);
    var last := StepsPlayed(steps, songBar, sheet, p0, barD, whnD);
    assert last == BarPlayed(p, bar, start, sheet, p0, barD, whnD);
    assert BarsPlayed(p, bar + 1, start, sheet, p0, barD, whnD) == prefix + last;
    EventsConcat(prefix, last);
  }

  /** The notes of one step, all starting at the step's time. */
  method AppendStep(events: seq<Event>, step: Step, songBar: int, sheet: Sheet, p0: real, barD: real, whnD: real)
    returns (out: seq<Event>)
    ensures out == events + Events(NotesPlayed(step.notes, songBar - Exercises.LEAD_IN, sheet, OnTime(p0, songBar, step.offset, barD), whnD))
  {
    var exBar := songBar - Exercises.LEAD_IN;
    var onTime := OnTime(p0, songBar, step.offset, barD);
    var notes := step.notes;
    out := events;
    var j := 0;
    while j < |notes|
      invariant 0 <= j <= |notes|
      invariant out == events + Events(NotesPlayed(notes[..j], exBar, sheet, onTime, whnD))
    {
      ghost var done := Events(NotesPlayed(notes[..j], exBar, sheet, onTime, whnD));
      ghost var next := Events(NotePlayed(notes[j], exBar, sheet, onTime, whnD));
      out := AppendNote(out, notes[j], exBar, sheet, onTime, whnD);
      assert out == (events + done) + next;
      NotesSnoc(notes, j, exBar, sheet, onTime, whnD);
      Assoc(events, done, next);
      j := j + 1;
    }
    assert notes[..j] == notes;
  }

  /** One bar of the run: every step of the bar pattern at its time. */
  method AppendBar(events: seq<Event>, steps: seq<Step>, songBar: int, sheet: Sheet, p0: real, barD: real, whnD: real)
    returns (out: seq<Event>)
    ensures out == events + Events(StepsPlayed(steps, songBar, sheet, p0, barD, whnD))
  {
    out := events;
    var i := 0;
    while i < |steps|
      invariant 0 <= i <= |steps|
      invariant out == events + Events(StepsPlayed(steps[..i], songBar, sheet, p0, barD, whnD))
    {
      ghost var done := Events(StepsPlayed(steps[..i], songBar, sheet, p0, barD, whnD));
      ghost var next := Events(NotesPlayed(steps[i].notes, songBar - Exercises.LEAD_IN, sheet,
                                           OnTime(p0, songBar, steps[i].offset, barD), whnD));
      out := AppendStep(out, steps[i], songBar, sheet, p0, barD, whnD);
      StepsSnoc(steps, i, songBar, sheet, p0, barD, whnD);
      Assoc(events, done, next);
      i := i + 1;
    }
    assert steps[..i] == steps;
  }

  lemma {:induction false} GeneratedRun(sheet: Sheet, tempo: real, p0: real, p: Pattern, bars: int, start: int)
    requires tempo != 0.0
    ensures Generated(sheet, tempo, p0, p, bars, start)
         == Run(p, bars, start, sheet, p0, sheet.barDuration / tempo, sheet.wholeNoteDuration / tempo)
  {
  }

  /** The events of the run at the given bar and whole-note durations, as
      the loop over bars builds them. */
  function Run(p: Pattern, bars: int, start: int, sheet: Sheet, p0: real, barD: real, whnD: real): (r: Result<seq<Event>>)
    ensures r.Ok? <==> bars <= 0 || |p| > 0
  {
    if bars <= 0 then Ok([])
    else if |p| == 0 then Err(ZeroDivisionError)
    else Ok(Events(BarsPlayed(p, bars, start, sheet, p0, barD, whnD)))
  }

  /** The loop over bars of prepare_track, for a run that has bars. */
  method AppendBars(pattern: Pattern, bars: nat, start: int, sheet: Sheet, p0: real, barD: real, whnD: real)
    returns (events: seq<Event>)
    requires |pattern| > 0
    ensures events == Events(BarsPlayed(pattern, bars, start, sheet, p0, barD, whnD))
  {
    events := [];
    var bar: nat := 0;
    while bar < bars
      invariant bar <= bars
      invariant events == Events(BarsPlayed(pattern, bar, start, sheet, p0, barD, whnD))
    {
      var steps := pattern[bar % |pattern|];
      ghost var before := events;
      var songBar := start + bar;
      events := AppendBar(events, steps, songBar, sheet, p0, barD, whnD);
      NextBar(pattern, bar, start, sheet, p0, barD, whnD, steps, songBar, before, events);
      bar := bar + 1;
    }
  }

  /** The run of bars: nothing for no bars, and the ZeroDivisionError of
      `bar % len(pattern)` for an empty pattern. */
  method RunBars(pattern: Pattern, bars: int, start: int, sheet: Sheet, p0: real, barD: real, whnD: real)
    returns (r: Result<seq<Event>>)
    ensures r == Run(pattern, bars, start, sheet, p0, barD, whnD)
  {
    if bars <= 0 {
      return Ok([]);
    }
    if |pattern| == 0 {
      return Err(ZeroDivisionError);
    }
    var events := AppendBars(pattern, bars, start, sheet, p0, barD, whnD);
    return Ok(events);
  }

  /** `prepare_track(pattern, bars, start)`. */
  method PrepareTrack(sheet: Sheet, tempo: real, p0: real, pattern: Pattern, bars: int, start: int)
    returns (r: Result<seq<Event>>)
    ensures r == Prepared(sheet, tempo, p0, pattern, bars, start)
  {
    if tempo == 0.0 {
      return Err(ZeroDivisionError);
    }
    var barD := sheet.barDuration / tempo;
    var whnD := sheet.wholeNoteDuration / tempo;
    var events := RunBars(pattern, bars, start, sheet, p0, barD, whnD);
    GeneratedRun(sheet, tempo, p0, pattern, bars, start);
    match events {
      case Err(e) => return Err(e);
      case Ok(evs) => return Ok(SortEvents(evs));
    }
  }
}
