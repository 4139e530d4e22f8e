/** The older standalone exercise generator: major scales only, with note
    tables indexed from A = 0 rather than C = 0, and chords spelled after
    the scale root rather than after the chord root. */
module RandomHarmonization {
  import opened Builtins
  import Notes

  const EXERCISE_LENGTH: int := 10

  const S_NOTES: seq<Notes.Name> := [Notes.A, Notes.As, Notes.B, Notes.C, Notes.Cs, Notes.D, Notes.Ds, Notes.E, Notes.F, Notes.Fs, Notes.G, Notes.Gs]
  const F_NOTES: seq<Notes.Name> := [Notes.A, Notes.Bb, Notes.B, Notes.C, Notes.Db, Notes.D, Notes.Eb, Notes.E, Notes.F, Notes.Gb, Notes.G, Notes.Ab]
  const FLATS: seq<int> := [0, 1, 0, 0, 1, 0, 1, 0, 1, 0, 0, 1]

  function Spelling(flats: bool): (names: seq<Notes.Name>)
    ensures |names| == 12
  {
    if flats then F_NOTES else S_NOTES
  }

  /** The major-scale harmonisation: interval above the root and quality. */
  const HARMONISATION: seq<(int, Notes.Kind)> := [
    (0, Notes.MajorTriad), (2, Notes.MinorTriad), (4, Notes.MinorTriad), (5, Notes.MajorTriad),
    (7, Notes.Seventh), (9, Notes.MinorTriad), (11, Notes.Diminished)
  ]

  /** An index from A is the pitch class (from C) nine semitones higher. */
  function FromC(i: int): (pc: int)
    ensures 0 <= pc < 12
  {
    Notes.Mod12(i + 9)
  }

  /** The tables are those of the notes module turned to start at A. */
  lemma {:induction false} TablesFromA(i: int)
    requires 0 <= i < 12
    ensures S_NOTES[i] == Notes.S_NOTES[FromC(i)]
    ensures F_NOTES[i] == Notes.F_NOTES[FromC(i)]
    ensures FLATS[i] == Notes.FLATS[FromC(i)]
  {
    var pc := if i < 3 then i + 9 else i - 3;
    assert FromC(i) == pc by {
      if i >= 3 {
        assert Notes.Mod12(i + 9) == Notes.Mod12(i - 3);
      }
    }
  }

  /** `scale_name`: the root's conventional spelling and "-major". */
  function ScaleName(root: int): (r: Result<string>)
    ensures r.Ok? <==> -12 <= root < 12
    ensures r.Err? ==> r.error == IndexError
  {
    match At(FLATS, root)
    case Err(e) => Err(e)
    case Ok(flats) =>
      match At(Spelling(flats == 1), root)
      case Err(e) => Err(e)
      case Ok(name) => Ok(Notes.Text(name) + "-major")
  }

  /** The scale name uses the same spelling as note_name does for the same
      pitch class. */
  lemma {:induction false} ScaleNameAgreesWithNoteName(root: int)
    requires 0 <= root < 12
    ensures Notes.NoteName(FromC(root)).Ok?
    ensures ScaleName(root) == Ok(Notes.NoteName(FromC(root)).value + "-major")
  {
    TablesFromA(root);
  }

  /** The chord root `chord_name` spells, and whether it uses flats. */
  datatype LegacyChord = LegacyChord(root: Notes.Name, flats: bool, index: int, quality: Notes.Kind)

  function SpellChord(root: int, degree: int): (r: Result<LegacyChord>)
    ensures r.Ok? <==> -7 <= degree < 7 && -12 <= root < 12
    ensures r.Err? ==> r.error == IndexError
    ensures r.Ok? ==> 0 <= r.value.index < 12 && r.value.root == Spelling(r.value.flats)[r.value.index]
  {
    match At(HARMONISATION, degree)
    case Err(e) => Err(e)
    case Ok(entry) =>
      var chordRoot := Notes.Mod12(root + entry.0);
      match At(FLATS, root)
      case Err(e) => Err(e)
      case Ok(flats) => Ok(LegacyChord(Spelling(flats == 1)[chordRoot], flats == 1, chordRoot, entry.1))
  }

  /** `chord_name`: the chord root's name followed by the quality. */
  function ChordName(root: int, degree: int): (r: Result<string>)
    ensures r.Ok? <==> -7 <= degree < 7 && -12 <= root < 12
    ensures r.Err? ==> r.error == IndexError
  {
    match SpellChord(root, degree)
    case Err(e) => Err(e)
    case Ok(c) => Ok(Notes.Text(c.root) + Notes.Suffix(c.quality))
  }

  /** The chord root is the scale root moved up by the degree's interval
      (mod 12), with the degree's quality; it is spelled with the flat names
      iff the SCALE root's entry in FLATS is 1, whatever the chord root. */
  lemma {:induction false} ChordRoot(root: int, degree: int)
    requires 0 <= root < 12 && 0 <= degree < 7
    ensures var c := SpellChord(root, degree).value;
            && c.index == Notes.Mod12(root + HARMONISATION[degree].0)
            && FromC(c.index) == Notes.Mod12(FromC(root) + HARMONISATION[degree].0)
            && Notes.Number(c.root) == FromC(c.index)
            && c.quality == HARMONISATION[degree].1
            && (c.flats <==> FLATS[root] == 1)
            && ChordName(root, degree) == Ok(Notes.Text(c.root) + Notes.Suffix(HARMONISATION[degree].1))
  {
    var c := SpellChord(root, degree).value;
    var k := HARMONISATION[degree].0;
    Notes.PitchSum(root + k, 9);
    Notes.PitchSum(root + 9, k);
    assert root + k + 9 == root + 9 + k;
    TablesFromA(c.index);
    Notes.SpellingNumbers(FromC(c.index));
  }

  datatype Exercise = Exercise(root: int, scaleName: string, progression: seq<int>, chordNames: seq<string>)

  /** `Exercise.__init__`: `rootDraw` is randint(0, 11) and `draws` the ten
      values of randint(0, 6). */
  function NewExercise(rootDraw: int, draws: seq<int>): (ex: Exercise)
    requires 0 <= rootDraw <= 11
    requires |draws| == EXERCISE_LENGTH
    requires forall i :: 0 <= i < |draws| ==> 0 <= draws[i] <= 6
    ensures 0 <= ex.root < 12 && ex.root == rootDraw
    ensures ScaleName(ex.root) == Ok(ex.scaleName)
    ensures ex.progression == draws && |ex.progression| == EXERCISE_LENGTH
    ensures |ex.chordNames| == |ex.progression|
    ensures forall i :: 0 <= i < |ex.progression| ==> ChordName(ex.root, ex.progression[i]) == Ok(ex.chordNames[i])
  {
    Exercise(rootDraw, ScaleName(rootDraw).value, draws,
             seq(|draws|, i requires 0 <= i < |draws| => ChordName(rootDraw, draws[i]).value))
  }
}
