/** Basic music theory: pitch-class names, the names scales are known by,
    and chord names for the degrees of a harmonised scale. Pitch classes are
    numbered from C = 0. The seventeen note names are an enumeration whose
    Text is the string the program uses; a string from a caller is read
    with Parse, which is the key lookup in the table of note numbers. */
module Notes {
  import opened Builtins

  datatype Name = C | Cs | Db | D | Ds | Eb | E | F | Fs | Gb | G | Gs | Ab | A | As | Bb | B

  function Text(n: Name): string {
    match n
    case C => "C"   case Cs => "C♯"  case Db => "D♭"  case D => "D"
    case Ds => "D♯" case Eb => "E♭"  case E => "E"    case F => "F"
    case Fs => "F♯" case Gb => "G♭"  case G => "G"    case Gs => "G♯"
    case Ab => "A♭" case A => "A"    case As => "A♯"  case Bb => "B♭"
    case B => "B"
  }

  /** The keys of the table of note numbers are exactly the texts of the
      seventeen names. */
  function Parse(s: string): (r: Option<Name>)
    ensures r.Some? ==> Text(r.value) == s
  {
    if s == "C" then Some(C) else if s == "C♯" then Some(Cs) else if s == "D♭" then Some(Db)
    else if s == "D" then Some(D) else if s == "D♯" then Some(Ds) else if s == "E♭" then Some(Eb)
    else if s == "E" then Some(E) else if s == "F" then Some(F) else if s == "F♯" then Some(Fs)
    else if s == "G♭" then Some(Gb) else if s == "G" then Some(G) else if s == "G♯" then Some(Gs)
    else if s == "A♭" then Some(Ab) else if s == "A" then Some(A) else if s == "A♯" then Some(As)
    else if s == "B♭" then Some(Bb) else if s == "B" then Some(B)
    else None
  }

  /** Parse reads back every name's text. */
  lemma {:induction false} ParseText(n: Name)
    ensures Parse(Text(n)) == Some(n)
  {
  }

  /** The values of the table of note numbers. */
  function Number(n: Name): (pc: int)
    ensures 0 <= pc < 12
  {
    match n
    case C => 0   case Cs => 1  case Db => 1  case D => 2
    case Ds => 3  case Eb => 3  case E => 4   case F => 5
    case Fs => 6  case Gb => 6  case G => 7   case Gs => 8
    case Ab => 8  case A => 9   case As => 10 case Bb => 10
    case B => 11
  }

  predicate HasFlat(n: Name) {
    n.Db? || n.Eb? || n.Gb? || n.Ab? || n.Bb?
  }

  const S_NOTES: seq<Name> := [C, Cs, D, Ds, E, F, Fs, G, Gs, A, As, B]
  const F_NOTES: seq<Name> := [C, Db, D, Eb, E, F, Gb, G, Ab, A, Bb, B]
  /** 1 where the pitch class is conventionally spelled with a flat. */
  const FLATS: seq<int> := [0, 1, 0, 1, 0, 1, 0, 0, 1, 0, 1, 0]

  /** NOTES[0] is the sharp spelling, NOTES[1] the flat one. */
  function Spelling(flats: bool): (names: seq<Name>)
    ensures |names| == 12
  {
    if flats then F_NOTES else S_NOTES
  }

  datatype Mode = Major | Minor

  function ModeName(mode: Mode): string {
    match mode
    case Major => "major"
    case Minor => "minor"
  }

  /** Scale roots in circle-of-fifths order, the names scales are known by. */
  function Scales(mode: Mode): (roots: seq<Name>)
    ensures |roots| == 12
  {
    match mode
    case Major => [C, G, D, A, E, B, Fs, Db, Ab, Eb, Bb, F]
    case Minor => [A, E, B, Fs, Cs, Gs, Ds, Bb, F, C, G, D]
  }

  datatype Harmonisation = Triads | Sevenths

  /** The chord qualities the harmonisation tables use, and the suffix
      each adds to the chord root's name. */
  datatype Kind = MajorTriad | MinorTriad | Diminished | Seventh | MajorSeventh | MinorSeventh | HalfDiminished

  function Suffix(k: Kind): string {
    match k
    case MajorTriad => ""
    case MinorTriad => "m"
    case Diminished => "dim"
    case Seventh => "7"
    case MajorSeventh => "maj7"
    case MinorSeventh => "m7"
    case HalfDiminished => "m7♭5"
  }

  /** One chord quality, or two alternatives. */
  datatype Quality = One(q: Kind) | Either(q1: Kind, q2: Kind)

  /** For each degree 0..6: the chord root's interval above the scale root
      in semitones, and the chord quality. */
  function Harmonization(h: Harmonisation, mode: Mode): (table: seq<(int, Quality)>)
    ensures |table| == 7
  {
    match h
    case Triads =>
      (match mode
       case Major =>
         [(0, One(MajorTriad)), (2, One(MinorTriad)), (4, One(MinorTriad)), (5, One(MajorTriad)),
          (7, Either(MajorTriad, Seventh)), (9, One(MinorTriad)), (11, One(Diminished))]
       case Minor =>
         [(0, One(MinorTriad)), (2, One(Diminished)), (3, One(MajorTriad)), (5, One(MinorTriad)),
          (7, Either(MinorTriad, MajorTriad)), (8, One(MajorTriad)), (10, Either(MajorTriad, Seventh))])
    case Sevenths =>
      (match mode
       case Major =>
         [(0, One(MajorSeventh)), (2, One(MinorSeventh)), (4, One(MinorSeventh)), (5, One(MajorSeventh)),
          (7, One(Seventh)), (9, One(MinorSeventh)), (11, One(HalfDiminished))]
       case Minor =>
         [(0, One(MinorSeventh)), (2, One(HalfDiminished)), (3, One(MajorSeventh)), (5, One(MinorSeventh)),
          (7, One(MinorSeventh)), (8, One(MajorSeventh)), (10, One(Seventh))])
  }

  /** A note as callers pass it: a name or a pitch-class number. */
  datatype NoteRef = Named(s: string) | Numbered(n: int)

  /** `note_name`: the conventional spelling of a pitch class. Indices
      -12..-1 count from the end, as Python indexing does. */
  function NoteName(note: int): (r: Result<string>)
    ensures r.Ok? <==> -12 <= note < 12
    ensures r.Ok? ==> var pc := if note < 0 then note + 12 else note;
                      r.value == Text(Spelling(FLATS[pc] == 1)[pc])
    ensures r.Err? ==> r.error == IndexError
  {
    match At(FLATS, note)
    case Err(e) => Err(e)
    case Ok(flats) =>
      match At(Spelling(flats == 1), note)
      case Err(e) => Err(e)
      case Ok(name) => Ok(Text(name))
  }

  /** `note_number`: a name's pitch class, KeyError for anything else. */
  function NoteNumber(s: string): (r: Result<int>)
    ensures r.Ok? <==> Parse(s).Some?
    ensures r.Ok? ==> r.value == Number(Parse(s).value) && 0 <= r.value < 12
    ensures r.Err? ==> r.error == KeyError
  {
    match Parse(s)
    case None => Err(KeyError)
    case Some(n) => Ok(Number(n))
  }

  /** The pitch class a note reference stands for, when it stands for one. */
  function PitchClass(note: NoteRef): (r: Result<int>)
    ensures r.Ok? ==> 0 <= r.value < 12
    ensures note.Named? ==> r == NoteNumber(note.s)
    ensures note.Numbered? ==> (r.Ok? <==> -12 <= note.n < 12) && (r.Err? ==> r.error == IndexError)
    ensures note.Numbered? && r.Ok? ==> r.value == note.n % 12
  {
    match note
    case Named(s) => NoteNumber(s)
    case Numbered(n) => if 0 <= n < 12 then Ok(n) else if -12 <= n < 0 then Ok(n + 12) else Err(IndexError)
  }

  /** The scale name for a pitch class: its flat spelling when that has no
      flat or already names a scale, else its sharp spelling. */
  function ScaleRootName(pc: int, mode: Mode): (name: Name)
    requires 0 <= pc < 12
    ensures name in Scales(mode) && Number(name) == pc
  {
    var flat := F_NOTES[pc];
    if !HasFlat(flat) || flat in Scales(mode) then flat else S_NOTES[pc]
  }

  /** `normalize_scale_root`: the name under which the scale on this note is
      known. A name already used for a scale is returned unchanged; any
      other name or number goes through its pitch class (Python's indexing
      of F_NOTES and S_NOTES by -12..11 is indexing by the pitch class). */
  function NormalizeScaleRoot(note: NoteRef, mode: Mode): (r: Result<Name>)
    ensures r.Ok? <==> PitchClass(note).Ok?
    ensures r.Ok? ==> r.value in Scales(mode) && Number(r.value) == PitchClass(note).value
    ensures note.Named? && Parse(note.s).Some? && Parse(note.s).value in Scales(mode) ==>
              r == Ok(Parse(note.s).value)
    ensures r.Err? ==> r.error == PitchClass(note).error
  {
    if note.Named? && Parse(note.s).Some? && Parse(note.s).value in Scales(mode) then
      Ok(Parse(note.s).value)
    else
      match PitchClass(note)
      case Err(e) => Err(e)
      case Ok(pc) => Ok(ScaleRootName(pc, mode))
  }

  /** Normalising twice is normalising once. */
  lemma {:induction false} NormalizeIdempotent(note: NoteRef, mode: Mode)
    requires NormalizeScaleRoot(note, mode).Ok?
    ensures NormalizeScaleRoot(Named(Text(NormalizeScaleRoot(note, mode).value)), mode) == NormalizeScaleRoot(note, mode)
  {
    ParseText(NormalizeScaleRoot(note, mode).value);
  }

  /** The scale root as chord_name resolves it: its number (the number it
      was given, or its name's number) and the name it then looks up in the
      scale list. A number is normalised first; a name is taken as it is. */
  function ResolveRoot(root: NoteRef, mode: Mode): (r: Result<(int, Name)>)
    ensures r.Ok? <==> PitchClass(root).Ok?
    ensures r.Ok? ==> Mod12(r.value.0) == PitchClass(root).value
    ensures r.Ok? && r.value.1 in Scales(mode) ==> NormalizeScaleRoot(root, mode) == Ok(r.value.1)
    ensures root.Numbered? && r.Ok? ==> r.value.1 in Scales(mode)
    ensures r.Err? ==> r.error == PitchClass(root).error
  {
    if root.Numbered? then
      match NormalizeScaleRoot(root, mode)
      case Err(e) => Err(e)
      case Ok(name) => Ok((root.n, name))
    else
      match Parse(root.s)
      case None => Err(KeyError)
      case Some(name) => Ok((Number(name), name))
  }

  /** A chord root's spelling and its quality, before formatting. */
  datatype Spelled = Spelled(root: Name, flats: bool, pitchClass: int, quality: Quality)

  /** The part of `chord_name` that picks the chord root and its spelling:
      the root's number plus the degree's interval, mod 12, spelled with
      flats iff the scale root stands past position 5 in the circle of
      fifths. */
  function SpellChord(root: NoteRef, degree: int, mode: Mode, h: Harmonisation): (r: Result<Spelled>)
    ensures r.Ok? ==> 0 <= r.value.pitchClass < 12
    ensures r.Ok? ==> r.value.root == Spelling(r.value.flats)[r.value.pitchClass]
  {
    match ResolveRoot(root, mode)
    case Err(e) => Err(e)
    case Ok(resolved) =>
      match IndexOf(Scales(mode), resolved.1)
      case Err(e) => Err(e)
      case Ok(position) =>
        match At(Harmonization(h, mode), degree)
        case Err(e) => Err(e)
        case Ok(entry) =>
          var pc := Mod12(resolved.0 + entry.0);
          Ok(Spelled(Spelling(position > 5)[pc], position > 5, pc, entry.1))
  }

  /** `chord_name`: the chord root's name followed by the quality, or
      "<name><q1> or <name><q2>" for a degree with two qualities. */
  function ChordName(root: NoteRef, degree: int, mode: Mode, h: Harmonisation): (r: Result<string>)
    ensures r.Ok? <==> SpellChord(root, degree, mode, h).Ok?
    ensures r.Err? ==> r.error == SpellChord(root, degree, mode, h).error
  {
    match SpellChord(root, degree, mode, h)
    case Err(e) => Err(e)
    case Ok(s) =>
      match s.quality
      case One(q) => Ok(Text(s.root) + Suffix(q))
      case Either(q1, q2) => Ok(Text(s.root) + Suffix(q1) + " or " + Text(s.root) + Suffix(q2))
  }

  /** note_number undoes note_name on 0..11 (and maps the name of a
      negative index -12..-1 to the pitch class it counts back to), and the
      sharp and the flat name of a pitch class have the same number. */
  lemma {:induction false} NoteNameRoundTrip(n: int)
    requires -12 <= n < 12
    ensures var pc := if n < 0 then n + 12 else n;
            && NoteName(n).Ok? && NoteNumber(NoteName(n).value) == Ok(pc)
            && NoteNumber(Text(S_NOTES[pc])) == NoteNumber(Text(F_NOTES[pc])) == Ok(pc)
  {
    var pc := if n < 0 then n + 12 else n;
    ParseText(S_NOTES[pc]);
    ParseText(F_NOTES[pc]);
    SpellingNumbers(pc);
  }

  /** Both spellings of a pitch class have that number. */
  lemma {:induction false} SpellingNumbers(pc: int)
    requires 0 <= pc < 12
    ensures Number(S_NOTES[pc]) == pc && Number(F_NOTES[pc]) == pc
  {
  }

  /** note_name spells with a flat exactly where FLATS says so, except at
      5, where FLATS holds 1 but the flat list's name is F. */
  lemma {:induction false} NoteNameUsesFlats(n: int)
    requires 0 <= n < 12
    ensures HasFlat(Spelling(FLATS[n] == 1)[n]) <==> FLATS[n] == 1 && n != 5
  {
  }

  /** Python's `x % 12`, which floors: the pitch class of any note number.
      Written by repeated steps of 12 so that it stays linear arithmetic;
      Mod12IsMod shows it is the floored remainder. */
  function Mod12(x: int): (r: int)
    ensures 0 <= r < 12
    decreases if x < 0 then 12 - x else x
  {
    if x < 0 then Mod12(x + 12) else if x < 12 then x else Mod12(x - 12)
  }

  lemma {:induction false} Mod12IsMod(x: int)
    ensures Mod12(x) == x % 12
    decreases if x < 0 then 12 - x else x
  {
    if x < 0 {
      Mod12IsMod(x + 12);
      ModShift(x, 12);
    } else if x >= 12 {
      Mod12IsMod(x - 12);
      ModShift(x - 12, 12);
    } else {
      ModUnique(x, 12, 0, x);
    }
  }

  /** Reducing the first summand first does not change the pitch class. */
  lemma {:induction false} PitchSum(a: int, b: int)
    ensures Mod12(a + b) == Mod12(Mod12(a) + b)
  {
    Mod12IsMod(a + b);
    Mod12IsMod(a);
    Mod12IsMod(Mod12(a) + b);
    var q := a / 12;
    assert a == 12 * q + a % 12;
    assert a + b == 12 * q + (a % 12 + b);
  }

  /** The chord root chord_name spells is the scale root's pitch class plus
      the degree's interval (mod 12); the quality is the degree's. */
  lemma {:induction false} ChordRoot(root: NoteRef, degree: int, mode: Mode, h: Harmonisation)
    requires SpellChord(root, degree, mode, h).Ok?
    ensures PitchClass(root).Ok? && At(Harmonization(h, mode), degree).Ok?
    ensures var s := SpellChord(root, degree, mode, h).value;
            var entry := At(Harmonization(h, mode), degree).value;
            && s.pitchClass == Mod12(PitchClass(root).value + entry.0)
            && s.quality == entry.1
  {
    var resolved := ResolveRoot(root, mode).value;
    var entry := At(Harmonization(h, mode), degree).value;
    PitchSum(resolved.0, entry.0);
  }

  /** The chord root's name maps back to its pitch class, and it is spelled
      with flats iff the (normalised) scale root stands past position 5 of
      the scale list. */
  lemma {:induction false} ChordRootSpelling(root: NoteRef, degree: int, mode: Mode, h: Harmonisation)
    requires SpellChord(root, degree, mode, h).Ok?
    ensures NormalizeScaleRoot(root, mode).Ok?
    ensures var s := SpellChord(root, degree, mode, h).value;
            && NoteNumber(Text(s.root)) == Ok(s.pitchClass)
            && (s.flats <==> IndexOf(Scales(mode), NormalizeScaleRoot(root, mode).value).value > 5)
  {
    var s := SpellChord(root, degree, mode, h).value;
    var resolved := ResolveRoot(root, mode).value;
    assert IndexOf(Scales(mode), resolved.1).Ok?;
    ParseText(s.root);
    SpellingNumbers(s.pitchClass);
  }

  /** A root that does not name a scale of the mode is an error: a KeyError
      when it is not a note name at all, else the ValueError of
      `list.index`. A number outside -12..11 is an IndexError, and so is a
      degree outside -7..6. */
  lemma {:induction false} ChordNameErrors(root: NoteRef, degree: int, mode: Mode, h: Harmonisation)
    ensures root.Named? && Parse(root.s).None? ==> ChordName(root, degree, mode, h) == Err(KeyError)
    ensures root.Named? && Parse(root.s).Some? && Parse(root.s).value !in Scales(mode) ==>
              ChordName(root, degree, mode, h) == Err(ValueError)
    ensures root.Numbered? && !(-12 <= root.n < 12) ==> ChordName(root, degree, mode, h) == Err(IndexError)
    ensures (&& NormalizeScaleRoot(root, mode).Ok?
             && (root.Named? ==> Parse(root.s).value in Scales(mode))
             && !(-7 <= degree < 7)) ==> ChordName(root, degree, mode, h) == Err(IndexError)
  {
  }

  /** A degree with two qualities yields "<name><q1> or <name><q2>". */
  lemma {:induction false} TwoQualities(root: NoteRef, degree: int, mode: Mode, h: Harmonisation)
    requires SpellChord(root, degree, mode, h).Ok?
    requires SpellChord(root, degree, mode, h).value.quality.Either?
    ensures var s := SpellChord(root, degree, mode, h).value;
            ChordName(root, degree, mode, h) ==
              Ok(Text(s.root) + Suffix(s.quality.q1) + " or " + Text(s.root) + Suffix(s.quality.q2))
  {
  }

  /** The name chord_name gives whenever it gives one: the chord root's
      pitch class (the root's pitch class plus the degree's interval, mod
      12) spelled from the flat table iff the normalised scale root stands
      past position 5 of the scale list, followed by the degree's quality,
      or by each of its two qualities joined with " or ". */
  lemma {:induction false} ChordNameSpelled(root: NoteRef, degree: int, mode: Mode, h: Harmonisation)
    requires ChordName(root, degree, mode, h).Ok?
    ensures PitchClass(root).Ok? && NormalizeScaleRoot(root, mode).Ok? && At(Harmonization(h, mode), degree).Ok?
    ensures var entry := At(Harmonization(h, mode), degree).value;
            var position := IndexOf(Scales(mode), NormalizeScaleRoot(root, mode).value).value;
            var name := Text(Spelling(position > 5)[Mod12(PitchClass(root).value + entry.0)]);
            var r := ChordName(root, degree, mode, h);
            && (entry.1.One? ==> r == Ok(name + Suffix(entry.1.q)))
            && (entry.1.Either? ==> r == Ok(name + Suffix(entry.1.q1) + " or " + name + Suffix(entry.1.q2)))
  {
    ChordRoot(root, degree, mode, h);
    ChordRootSpelling(root, degree, mode, h);
  }

  /** For example, the fifth degree of C major is named "G or G7". */
  lemma DominantOfC()
    ensures ChordName(Named("C"), 4, Major, Triads) == Ok("G or G7")
  {
    DominantOfCParts();
    DominantOfCText();
  }

  lemma DominantOfCParts()
    ensures ChordName(Named("C"), 4, Major, Triads) == Ok(Text(G) + Suffix(MajorTriad) + " or " + Text(G) + Suffix(Seventh))
  {
    ParseText(C);
    assert ResolveRoot(Named("C"), Major) == Ok((0, C));
    assert IndexOf(Scales(Major), C) == Ok(0);
    assert At(Harmonization(Triads, Major), 4) == Ok((7, Either(MajorTriad, Seventh)));
    assert Mod12(0 + 7) == 7 && Spelling(false)[7] == G;
    assert SpellChord(Named("C"), 4, Major, Triads) == Ok(Spelled(G, false, 7, Either(MajorTriad, Seventh)));
  }

  lemma DominantOfCText()
    ensures Text(G) + Suffix(MajorTriad) + " or " + Text(G) + Suffix(Seventh) == "G or G7"
  {
  }

  /** Every scale root of every mode, with every degree 0..6, has a chord
      name: the case the exercise generator relies on. */
  lemma {:induction false} ChordNameDefined(root: Name, degree: int, mode: Mode, h: Harmonisation)
    requires root in Scales(mode) && 0 <= degree < 7
    ensures ChordName(Named(Text(root)), degree, mode, h).Ok?
  {
    ParseText(root);
  }

  /** No scale name appears twice in a list. */
  lemma {:induction false} ScalesDistinct(mode: Mode)
    ensures forall j, k :: 0 <= j < k < 12 ==> Scales(mode)[j] != Scales(mode)[k]
  {
  }

  /** How each scale's root is spelled by the list chord_name picks from
      its position: like the root itself, except at position 6, where the
      major and minor lists hold F♯ and D♯ and the flat list gives G♭ and
      E♭. */
  lemma {:induction false} ScaleRootSpelling(mode: Mode, i: int)
    requires 0 <= i < 12
    ensures i != 6 ==> Spelling(i > 5)[Number(Scales(mode)[i])] == Scales(mode)[i]
    ensures i == 6 ==> Scales(mode)[i] == (if mode == Major then Fs else Ds)
    ensures i == 6 ==> Spelling(i > 5)[Number(Scales(mode)[i])] == (if mode == Major then Gb else Eb)
  {
  }

  /** The tonic triad is spelled like the scale root, except at position 6
      of the lists, the six-accidental keys F♯ major and D♯ minor, which
      chord_name spells with flats: G♭ and E♭m. */
  lemma {:induction false} TonicSpelling(mode: Mode, i: int)
    requires 0 <= i < 12
    ensures var root := Scales(mode)[i];
            var q := Suffix(if mode == Major then MajorTriad else MinorTriad);
            && (i != 6 ==> ChordName(Named(Text(root)), 0, mode, Triads) == Ok(Text(root) + q))
            && (i == 6 ==> ChordName(Named(Text(root)), 0, mode, Triads) == Ok(Text(if mode == Major then Gb else Eb) + q))
  {
    var root := Scales(mode)[i];
    ParseText(root);
    ScalesDistinct(mode);
    IndexOfDistinct(Scales(mode), i);
    ScaleRootSpelling(mode, i);
    assert ResolveRoot(Named(Text(root)), mode) == Ok((Number(root), root));
  }
}
