/** An exercise: a scale (root and mode), its timing at a tempo, and a
    random progression of scale degrees with the name of each degree's
    chord. The random draws are parameters: `choice` is the position
    random.choice picks in the mode's list of scale roots, and `draws` are
    the values of randint(0, 6), one per bar. */
module Exercises {
  import opened Builtins
  import opened Notes

  /** Bars of count-in before the exercise proper. */
  const LEAD_IN: int := 2
  const DEFAULT_LENGTH: int := 10
  const DEFAULT_TEMPO: real := 60.0
  const BEATS_IN_BAR: int := 4

  /** The root argument as callers pass it: none, a string, an int, or a
      value of any other type. */
  datatype RootArg = NoRoot | StrRoot(s: string) | IntRoot(n: int) | OtherRoot

  datatype Exercise = Exercise(
    tempo: real,
    length: int,
    mode: Mode,
    root: Name,
    scaleName: string,
    beatsInBar: int,
    beatDuration: real,
    barDuration: real,
    wholeNoteDuration: real,
    progression: seq<int>,
    chordNames: seq<string>)

  /** The root before normalisation: the given string, the name of the
      given pitch class, or the drawn scale root; TypeError for any other
      kind of value. */
  function GivenRoot(root: RootArg, mode: Mode, choice: int): (r: Result<NoteRef>)
    requires 0 <= choice < 12
    ensures r.Ok? ==> r.value.Named?
    ensures root.NoRoot? ==> r == Ok(Named(Text(Scales(mode)[choice])))
    ensures root.StrRoot? ==> r == Ok(Named(root.s))
    ensures root.IntRoot? ==> r.Ok? == (-12 <= root.n < 12) && (r.Ok? ==> r == Ok(Named(NoteName(root.n).value)))
    ensures root.OtherRoot? ==> r == Err(TypeError)
    ensures r.Err? && root.IntRoot? ==> r.error == IndexError
  {
    match root
    case NoRoot => Ok(Named(Text(Scales(mode)[choice])))
    case StrRoot(s) => Ok(Named(s))
    case IntRoot(n) =>
      (match NoteName(n)
       case Err(e) => Err(e)
       case Ok(name) => Ok(Named(name)))
    case OtherRoot => Err(TypeError)
  }

  /** A root argument the constructor accepts. */
  predicate RootAccepted(root: RootArg) {
    match root
    case NoRoot => true
    case StrRoot(s) => Parse(s).Some?
    case IntRoot(n) => -12 <= n < 12
    case OtherRoot => false
  }

  /** The pitch class of an accepted given root. */
  function GivenPitchClass(root: RootArg): (pc: int)
    requires RootAccepted(root) && !root.NoRoot?
    ensures 0 <= pc < 12
  {
    if root.StrRoot? then Number(Parse(root.s).value)
    else if root.n < 0 then root.n + 12 else root.n
  }

  /** The given root, when there is one, is a note name with the pitch
      class given. */
  lemma {:induction false} GivenRootParses(root: RootArg, mode: Mode, choice: int)
    requires 0 <= choice < 12
    ensures GivenRoot(root, mode, choice).Ok? && !root.StrRoot? ==> Parse(GivenRoot(root, mode, choice).value.s).Some?
    ensures root.NoRoot? ==> Parse(GivenRoot(root, mode, choice).value.s) == Some(Scales(mode)[choice])
    ensures root.IntRoot? && -12 <= root.n < 12 ==>
              Number(Parse(GivenRoot(root, mode, choice).value.s).value) == GivenPitchClass(root)
  {
    if root.IntRoot? && -12 <= root.n < 12 {
      NoteNameRoundTrip(root.n);
    }
    if root.NoRoot? {
      ParseText(Scales(mode)[choice]);
    }
  }

  /** The root the exercise is in: the given or drawn root, normalised to
      the name its scale is known by. */
  function ExerciseRoot(root: RootArg, mode: Mode, choice: int): (r: Result<Name>)
    requires 0 <= choice < 12
    ensures r.Ok? <==> RootAccepted(root)
    ensures root.OtherRoot? ==> r == Err(TypeError)
    ensures root.IntRoot? && !(-12 <= root.n < 12) ==> r == Err(IndexError)
    ensures root.StrRoot? && Parse(root.s).None? ==> r == Err(KeyError)
    ensures r.Ok? ==> r.value in Scales(mode)
    ensures r.Ok? && root.NoRoot? ==> r.value == Scales(mode)[choice]
    ensures r.Ok? && !root.NoRoot? ==> Number(r.value) == GivenPitchClass(root)
  {
    GivenRootParses(root, mode, choice);
    match GivenRoot(root, mode, choice)
    case Err(e) => Err(e)
    case Ok(given) => NormalizeScaleRoot(given, mode)
  }

  lemma {:induction false} Durations(tempo: real, beat: real, whole: real)
    requires tempo != 0.0 && beat == 60.0 / tempo && whole == 60.0 * 4.0 / tempo
    ensures beat * 4.0 == whole && whole * tempo == 240.0 && beat * tempo == 60.0
  {
  }

  /** The name of the chord on each degree of a progression, in a scale
      every degree of which has one. */
  function ChordNames(root: Name, progression: seq<int>, mode: Mode): (names: seq<string>)
    requires root in Scales(mode)
    requires forall i :: 0 <= i < |progression| ==> 0 <= progression[i] <= 6
    ensures |names| == |progression|
    ensures forall i :: 0 <= i < |progression| ==> ChordName(Named(Text(root)), progression[i], mode, Triads) == Ok(names[i])
  {
    ProgressionDefined(root, progression, mode);
    seq(|progression|, i requires 0 <= i < |progression| =>
      ChordName(Named(Text(root)), progression[i], mode, Triads).value)
  }

  lemma {:induction false} ProgressionDefined(root: Name, progression: seq<int>, mode: Mode)
    requires root in Scales(mode)
    requires forall i :: 0 <= i < |progression| ==> 0 <= progression[i] <= 6
    ensures forall i :: 0 <= i < |progression| ==> ChordName(Named(Text(root)), progression[i], mode, Triads).Ok?
  {
    forall i | 0 <= i < |progression| {
      ChordNameDefined(root, progression[i], mode, Triads);
    }
  }

  /** `Exercise.__init__`. */
  function NewExercise(tempo: real, length: int, root: RootArg, mode: Mode, choice: int, draws: seq<int>): (r: Result<Exercise>)
    requires 0 <= choice < 12
    requires |draws| == if length > 0 then length else 0
    requires forall i :: 0 <= i < |draws| ==> 0 <= draws[i] <= 6
    ensures r.Ok? <==> RootAccepted(root) && tempo != 0.0
    ensures !RootAccepted(root) ==> r == Err(ExerciseRoot(root, mode, choice).error)
    ensures RootAccepted(root) && tempo == 0.0 ==> r == Err(ZeroDivisionError)
    ensures r.Ok? ==> var ex := r.value;
      && ex.tempo == tempo && ex.length == length && ex.mode == mode
      && ex.root == ExerciseRoot(root, mode, choice).value
      && ex.scaleName == Text(ex.root) + "-" + ModeName(mode)
      && ex.beatsInBar == 4
      && ex.barDuration == ex.beatDuration * 4.0
      && ex.wholeNoteDuration == ex.barDuration
      && ex.beatDuration == 60.0 / tempo && ex.wholeNoteDuration == 60.0 * 4.0 / tempo
      && ex.progression == draws
      && |ex.chordNames| == |ex.progression|
      && forall i :: 0 <= i < |ex.progression| ==>
           ChordName(Named(Text(ex.root)), ex.progression[i], mode, Triads) == Ok(ex.chordNames[i])
  {
    match ExerciseRoot(root, mode, choice)
    case Err(e) => Err(e)
    case Ok(name) =>
      if tempo == 0.0 then Err(ZeroDivisionError)
      else
        var beat := 60.0 / tempo;
        var whole := 60.0 * 4.0 / tempo;
        var ex := Exercise(tempo, length, mode, name, Text(name) + "-" + ModeName(mode),
                           BEATS_IN_BAR, beat, beat * BEATS_IN_BAR as real, whole,
                           draws, ChordNames(name, draws, mode));
        Durations(tempo, ex.beatDuration, ex.wholeNoteDuration);
        Ok(ex)
  }

  /** At the exercise's tempo a beat lasts 60/tempo seconds and a bar, the
      same as a whole note, four beats: whole note times tempo is 240. */
  lemma {:induction false} ExerciseTiming(tempo: real, length: int, root: RootArg, mode: Mode, choice: int, draws: seq<int>, ex: Exercise)
    requires 0 <= choice < 12
    requires |draws| == if length > 0 then length else 0
    requires forall i :: 0 <= i < |draws| ==> 0 <= draws[i] <= 6
    requires NewExercise(tempo, length, root, mode, choice, draws) == Ok(ex)
    ensures ex.beatDuration * tempo == 60.0 && ex.wholeNoteDuration * tempo == 240.0
  {
    Durations(tempo, ex.beatDuration, ex.wholeNoteDuration);
  }
}
