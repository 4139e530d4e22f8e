/** What a rebuild of the play list promises (`run`, lines 229-236): the
    count-in track over the two lead-in bars followed by the main track over
    the exercise bars is one sorted list, because the count-in ends no later
    than the exercise starts and the main track starts no earlier. */
module Rebuild {
  import opened Builtins
  import opened Midi
  import opened Tracks
  import opened Ordering
  import opened Timeline
  import Exercises

  lemma {:induction false} ScaleLess(x: real, y: real, d: real)
    requires x < y && d > 0.0
    ensures x * d < y * d
  {
  }

  lemma {:induction false} ScaleAtMost(x: real, y: real, d: real)
    requires x <= y && d > 0.0
    ensures x * d <= y * d
  {
  }

  lemma {:induction false} Distribute(x: real, y: real, d: real)
    ensures x * d + y * d == (x + y) * d
  {
  }

  /** The time arithmetic of a stroke that starts inside its bar and ends
      by the bar's end, in a bar before `last`. */
  lemma {:induction false} EndsInTime(p0: real, bar: int, offset: real, dur: real, last: int, barD: real, on: real, off: real)
    requires 0.0 <= offset < 1.0 && offset + dur <= 1.0 && bar + 1 <= last && barD > 0.0
    requires on == OnTime(p0, bar, offset, barD) && off == on + dur * barD
    ensures on < OnTime(p0, last, 0.0, barD) && off <= OnTime(p0, last, 0.0, barD)
  {
    ScaleLess(bar as real + offset, last as real + 0.0, barD);
    Distribute(bar as real + offset, dur, barD);
    ScaleAtMost(bar as real + offset + dur, last as real + 0.0, barD);
  }

  /** The time arithmetic of a stroke that starts at or after its bar's
      start, in a bar at or after `first`, and lasts a positive time. */
  lemma {:induction false} StartsInTime(p0: real, bar: int, offset: real, dur: real, first: int, barD: real, on: real, off: real)
    requires 0.0 <= offset && dur > 0.0 && first <= bar && barD > 0.0
    requires on == OnTime(p0, bar, offset, barD) && off == on + dur * barD
    ensures OnTime(p0, first, 0.0, barD) <= on < off
  {
    ScaleAtMost(first as real + 0.0, bar as real + offset, barD);
    ScaleLess(0.0, dur, barD);
  }

  /** The song bar, offset and duration behind a stroke of a run of a
      well-formed pattern. */
  lemma {:induction false} KeyInBar(p: Pattern, bars: nat, start: int, sheet: Sheet, p0: real, barD: real, whnD: real, q: Played)
    returns (bar: int, offset: real, dur: real)
    requires WellFormed(p)
    requires q in BarsPlayed(p, bars, start, sheet, p0, barD, whnD)
    ensures start <= bar < start + bars && 0.0 <= offset < 1.0 && dur > 0.0
    ensures EndsWithinBar(p) ==> offset + dur <= 1.0
    ensures q.on == OnTime(p0, bar, offset, barD) && q.off == q.on + dur * whnD
  {
    var b, i, j := KeyOrigin(p, bars, start, sheet, p0, barD, whnD, q);
    bar, offset, dur := StrokeTimes(p, b, i, j, start, p0, barD, whnD, q);
  }

  /** The song bar, offset and duration of the stroke note j of step i of
      bar b sounds. */
  lemma {:induction false} StrokeTimes(p: Pattern, b: nat, i: int, j: int, start: int, p0: real, barD: real, whnD: real, q: Played)
    returns (bar: int, offset: real, dur: real)
    requires WellFormed(p) && 0 <= i < |BarSteps(p, b)| && 0 <= j < |BarSteps(p, b)[i].notes|
    requires q.on == OnTime(p0, start + b, BarSteps(p, b)[i].offset, barD)
    requires q.off == q.on + BarSteps(p, b)[i].notes[j].duration * whnD
    ensures bar == start + b && 0.0 <= offset < 1.0 && dur > 0.0
    ensures EndsWithinBar(p) ==> offset + dur <= 1.0
    ensures q.on == OnTime(p0, bar, offset, barD) && q.off == q.on + dur * whnD
  {
    StepBounds(p, b, i, j);
    bar, offset, dur := start + b, BarSteps(p, b)[i].offset, BarSteps(p, b)[i].notes[j].duration;
  }

  /** Note j of step i of bar b of a run of a well-formed pattern starts
      inside the bar and lasts a positive time. */
  lemma {:induction false} StepBounds(p: Pattern, b: nat, i: int, j: int)
    requires WellFormed(p) && 0 <= i < |BarSteps(p, b)| && 0 <= j < |BarSteps(p, b)[i].notes|
    ensures 0.0 <= BarSteps(p, b)[i].offset < 1.0 && BarSteps(p, b)[i].notes[j].duration > 0.0
    ensures EndsWithinBar(p) ==> BarSteps(p, b)[i].offset + BarSteps(p, b)[i].notes[j].duration <= 1.0
  {
    var k := b % |p|;
    assert BarSteps(p, b) == p[k];
    assert WellFormedBar(p[k]) && DrumBar(p[k]);
    assert IsDrumNote(p[k][i].notes[j]);
  }

  /** When bar and whole note last the same, every stroke of a run of a
      pattern whose notes end within their bar starts before the run's end
      and ends by it. */
  lemma {:induction false} RunKeyEndsBy(p: Pattern, bars: nat, start: int, sheet: Sheet, p0: real, barD: real, q: Played)
    requires WellFormed(p) && EndsWithinBar(p) && barD > 0.0
    requires q in BarsPlayed(p, bars, start, sheet, p0, barD, barD)
    ensures q.on < OnTime(p0, start + bars, 0.0, barD) && q.off <= OnTime(p0, start + bars, 0.0, barD)
  {
    var bar, offset, dur := KeyInBar(p, bars, start, sheet, p0, barD, barD, q);
    EndsInTime(p0, bar, offset, dur, start + bars, barD, q.on, q.off);
  }

  /** Every stroke of a run of a well-formed pattern starts at or after the
      run's start and ends strictly after it starts. */
  lemma {:induction false} RunKeyStartsFrom(p: Pattern, bars: nat, start: int, sheet: Sheet, p0: real, barD: real, q: Played)
    requires WellFormed(p) && barD > 0.0
    requires q in BarsPlayed(p, bars, start, sheet, p0, barD, barD)
    ensures OnTime(p0, start, 0.0, barD) <= q.on < q.off
  {
    var bar, offset, dur := KeyInBar(p, bars, start, sheet, p0, barD, barD, q);
    StartsInTime(p0, bar, offset, dur, start, barD, q.on, q.off);
  }

  /** Strokes that start before `t` and end by it give events that end by
      `t`. */
  lemma {:induction false} EventsEndBy(ps: seq<Played>, t: real)
    requires forall q :: q in ps ==> q.on < t && q.off <= t
    ensures EndsBy(Events(ps), t)
  {
    forall x | x in Events(ps)
      ensures x.time <= t && (x.time == t ==> IsNoteOff(x.msg))
    {
      EventsMembers(ps, x);
    }
  }

  /** Strokes that start at or after `t` and last a positive time give
      events that start from `t`. */
  lemma {:induction false} EventsStartFrom(ps: seq<Played>, t: real)
    requires forall q :: q in ps ==> t <= q.on < q.off
    ensures StartsFrom(Events(ps), t)
  {
    forall y | y in Events(ps)
      ensures t <= y.time && (y.time == t ==> IsNoteOn(y.msg))
    {
      EventsMembers(ps, y);
    }
  }

  /** Sorting keeps exactly the events it is given, so it keeps both
      bounds. */
  lemma {:induction false} SortKeepsBounds(evs: seq<Event>, t: real)
    ensures EndsBy(evs, t) ==> EndsBy(SortEvents(evs), t)
    ensures StartsFrom(evs, t) ==> StartsFrom(SortEvents(evs), t)
  {
    forall x | x in SortEvents(evs)
      ensures x in evs
    {
      assert x in multiset(SortEvents(evs));
    }
  }

  lemma {:induction false} LeadEndsBy(sheet: Sheet, tempo: real, p0: real)
    requires tempo > 0.0 && sheet.barDuration > 0.0 && sheet.wholeNoteDuration == sheet.barDuration
    ensures Prepared(sheet, tempo, p0, LEAD_TRACK, Exercises.LEAD_IN, 0).Ok?
    ensures EndsBy(Prepared(sheet, tempo, p0, LEAD_TRACK, Exercises.LEAD_IN, 0).value,
                   OnTime(p0, Exercises.LEAD_IN, 0.0, sheet.barDuration / tempo))
  {
    var barD := sheet.barDuration / tempo;
    var t := OnTime(p0, Exercises.LEAD_IN, 0.0, barD);
    var ps := BarsPlayed(LEAD_TRACK, Exercises.LEAD_IN, 0, sheet, p0, barD, barD);
    LeadTrackShape();
    forall q | q in ps
      ensures q.on < t && q.off <= t
    {
      RunKeyEndsBy(LEAD_TRACK, Exercises.LEAD_IN, 0, sheet, p0, barD, q);
    }
    EventsEndBy(ps, t);
    SortKeepsBounds(Events(ps), t);
    assert sheet.wholeNoteDuration / tempo == barD;
  }

  lemma {:induction false} MainStartsFrom(sheet: Sheet, tempo: real, p0: real, main: Pattern)
    requires tempo > 0.0 && sheet.barDuration > 0.0 && sheet.wholeNoteDuration == sheet.barDuration
    requires WellFormed(main)
    ensures Prepared(sheet, tempo, p0, main, sheet.length, Exercises.LEAD_IN).Ok?
    ensures StartsFrom(Prepared(sheet, tempo, p0, main, sheet.length, Exercises.LEAD_IN).value,
                       OnTime(p0, Exercises.LEAD_IN, 0.0, sheet.barDuration / tempo))
  {
    var barD := sheet.barDuration / tempo;
    var t := OnTime(p0, Exercises.LEAD_IN, 0.0, barD);
    if sheet.length > 0 {
      var ps := BarsPlayed(main, sheet.length, Exercises.LEAD_IN, sheet, p0, barD, barD);
      forall q | q in ps
        ensures t <= q.on < q.off
      {
        RunKeyStartsFrom(main, sheet.length, Exercises.LEAD_IN, sheet, p0, barD, q);
      }
      EventsStartFrom(ps, t);
      SortKeepsBounds(Events(ps), t);
      assert sheet.wholeNoteDuration / tempo == barD;
    }
  }

  /** The rebuilt play list, count-in then main track, is sorted as a whole:
      its head is always the next event due. */
  lemma {:induction false} LeadThenMain(sheet: Sheet, tempo: real, p0: real, main: Pattern)
    requires tempo > 0.0 && sheet.barDuration > 0.0 && sheet.wholeNoteDuration == sheet.barDuration
    requires WellFormed(main)
    ensures Prepared(sheet, tempo, p0, LEAD_TRACK, Exercises.LEAD_IN, 0).Ok?
    ensures Prepared(sheet, tempo, p0, main, sheet.length, Exercises.LEAD_IN).Ok?
    ensures Sorted(Prepared(sheet, tempo, p0, LEAD_TRACK, Exercises.LEAD_IN, 0).value
                   + Prepared(sheet, tempo, p0, main, sheet.length, Exercises.LEAD_IN).value)
  {
    var lead := Prepared(sheet, tempo, p0, LEAD_TRACK, Exercises.LEAD_IN, 0).value;
    var rest := Prepared(sheet, tempo, p0, main, sheet.length, Exercises.LEAD_IN).value;
    var t := OnTime(p0, Exercises.LEAD_IN, 0.0, sheet.barDuration / tempo);
    LeadEndsBy(sheet, tempo, p0);
    MainStartsFrom(sheet, tempo, p0, main);
    Boundary(lead, rest, t);
    SortedConcat(lead, rest);
  }

  /** The count-in is six strokes, so twelve events. */
  lemma {:induction false} LeadCount(sheet: Sheet, tempo: real, p0: real)
    requires tempo != 0.0
    ensures Prepared(sheet, tempo, p0, LEAD_TRACK, Exercises.LEAD_IN, 0).Ok?
    ensures |Prepared(sheet, tempo, p0, LEAD_TRACK, Exercises.LEAD_IN, 0).value| == 12
  {
    LeadTrackShape();
    PreparedLength(sheet, tempo, p0, LEAD_TRACK, Exercises.LEAD_IN, 0);
    DrumRunCount(LEAD_TRACK, Exercises.LEAD_IN, 0, sheet, p0, sheet.barDuration / tempo, sheet.wholeNoteDuration / tempo);
    LeadStrokes();
  }

  /** Two half-bar strokes, then four quarter-bar ones. */
  lemma LeadStrokes()
    ensures RunNoteTotal(LEAD_TRACK, 2) == 6
  {
    assert BarSteps(LEAD_TRACK, 0) == LEAD_TRACK[0] && BarSteps(LEAD_TRACK, 1) == LEAD_TRACK[1];
    var quarters := LEAD_TRACK[1];
    assert NoteTotal(LEAD_TRACK[0]) == 2;
    assert NoteTotal(quarters[..2]) == 2 by {
      assert quarters[..2][..1] == quarters[..1];
    }
    assert quarters[..3][..2] == quarters[..2] && quarters[..4] == quarters;
    assert NoteTotal(quarters) == 4;
    assert RunNoteTotal(LEAD_TRACK, 1) == 2;
  }

  /** A single-bar main track holds two events per note of its bar per
      exercise bar. */
  lemma {:induction false} MainCount(sheet: Sheet, tempo: real, p0: real, main: Pattern)
    requires tempo != 0.0 && WellFormed(main) && |main| == 1 && sheet.length >= 0
    ensures Prepared(sheet, tempo, p0, main, sheet.length, Exercises.LEAD_IN).Ok?
    ensures |Prepared(sheet, tempo, p0, main, sheet.length, Exercises.LEAD_IN).value| == 2 * (sheet.length * NoteTotal(main[0]))
  {
    PreparedLength(sheet, tempo, p0, main, sheet.length, Exercises.LEAD_IN);
    DrumRunCount(main, sheet.length, Exercises.LEAD_IN, sheet, p0, sheet.barDuration / tempo, sheet.wholeNoteDuration / tempo);
    SingleBarTotal(main, sheet.length);
  }

  /** The play list a rebuild computes: the count-in over the lead-in bars,
      then the named main track over the exercise's bars, both from the
      precise start time p0. Dividing by a missing tempo is a TypeError, by
      a zero tempo a ZeroDivisionError, and a track name that is not a main
      track a KeyError. */
  function Rebuilt(sheet: Sheet, tempo: Option<real>, p0: real, track: Option<string>): (r: Result<seq<Event>>)
    ensures r.Ok? <==> tempo.Some? && tempo.value != 0.0 && track.Some? && track.value in MAIN_TRACKS
    ensures tempo.None? ==> r == Err(TypeError)
    ensures tempo == Some(0.0) ==> r == Err(ZeroDivisionError)
    ensures tempo.Some? && tempo.value != 0.0 && !(track.Some? && track.value in MAIN_TRACKS) ==> r == Err(KeyError)
  {
    if tempo.None? then Err(TypeError)
    else
      match Prepared(sheet, tempo.value, p0, LEAD_TRACK, Exercises.LEAD_IN, 0)
      case Err(e) => Err(e)
      case Ok(lead) =>
        if track.None? || track.value !in MAIN_TRACKS then Err(KeyError)
        else
          MainTracksShape();
          Ok(lead + Prepared(sheet, tempo.value, p0, MAIN_TRACKS[track.value], sheet.length, Exercises.LEAD_IN).value)
  }

  /** At a positive tempo, with bars and whole notes of one positive length,
      the rebuilt play list is sorted: the player always finds the next
      event due at its head. */
  lemma {:induction false} RebuiltSorted(sheet: Sheet, tempo: real, p0: real, track: string)
    requires tempo > 0.0 && sheet.barDuration > 0.0 && sheet.wholeNoteDuration == sheet.barDuration
    requires track in MAIN_TRACKS
    ensures Rebuilt(sheet, Some(tempo), p0, Some(track)).Ok?
    ensures Sorted(Rebuilt(sheet, Some(tempo), p0, Some(track)).value)
  {
    MainTracksShape();
    LeadThenMain(sheet, tempo, p0, MAIN_TRACKS[track]);
  }

  /** The rebuilt play list holds the twelve count-in events and two events
      per note of the main track's bar per exercise bar. */
  lemma {:induction false} RebuiltCount(sheet: Sheet, tempo: real, p0: real, track: string)
    requires tempo != 0.0 && sheet.length >= 0 && track in MAIN_TRACKS
    ensures Rebuilt(sheet, Some(tempo), p0, Some(track)).Ok?
    ensures |Rebuilt(sheet, Some(tempo), p0, Some(track)).value|
         == 12 + 2 * (sheet.length * NoteTotal(MAIN_TRACKS[track][0]))
  {
    MainTracksShape();
    LeadCount(sheet, tempo, p0);
    MainCount(sheet, tempo, p0, MAIN_TRACKS[track]);
  }
}
