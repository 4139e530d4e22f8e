# Chord Exercise Partner: the backing-track player and its music helpers

Chord Exercise Partner generates practice exercises: a scale (root and mode) and a random
progression of the scale's degrees, each named by its chord. It plays a drum backing track
over MIDI: two bars of count-in, then the chosen main track for each bar of the exercise.
This project models in Dafny the part of the program that decides what is played, and when.

- **MIDI messages** (`Midi`). Note-on, note-off and program change are the Channel Voice
  messages of the MIDI 1.0 Detailed Specification. The player sends one more message on
  teardown: controller 120 with value 0 on each channel. That is the Channel Mode message
  "All Sound Off", not "All Notes Off" (controller 123) as the code comment says.
- **Patterns** (`Tracks`). The count-in and the two main tracks are constants. Their notes use
  the General MIDI System Level 1 percussion channel 10 and keys of its Percussion Key Map.
  Lemmas prove the shape of each pattern.
- **Music theory** (`Notes`, `Progressions`, `Exercises`, `RandomHarmonization`):
  - note spelling and note numbers;
  - the names scales are known by;
  - chord names for each degree;
  - the built-in progressions, the exercise lengths they allow, and cycling a progression;
  - exercise construction;
  - the older stand-alone generator.

  Random draws are parameters, constrained to their ranges.
- **Event order** (`Ordering`). Python orders `(time, message)` tuples by time, then by the
  message as a list of ints. `sorted` is modelled as an insertion sort, and any sorted
  arrangement of the same events is proved to be that one.
- **The timeline builder** (`Timeline`). `prepare_track` is a method with the same nested
  loops. It is proved equal to a specification function, and lemmas cover:
  - the times and keys of the events;
  - the chord placeholder;
  - the event counts;
  - sortedness.
- **The rebuild** (`Rebuild`). The play list is the count-in followed by the main track. It is
  sorted as a whole when bar and whole note last the same positive time. It holds twelve
  count-in events plus two per note per exercise bar.
- **Port choice** (`Ports`):
  - port weights from the name patterns;
  - the stable sort by weight and the list of available ports;
  - the port `__init__` opens;
  - the lookup `change_port` makes.
- **The player** (`Player.CompPlayer`). A class with the fields of `CompPlayer`. Its methods are:
  - the control calls (`start`, `stop`, `change_track`, `change_tempo`, `change_port`);
  - one wake-up of the player thread's outer loop;
  - one pass of its inner loop: rebuild, then dispatch of the head event;
  - teardown.

  Every message sent is logged with the output it went to.

Times, durations and velocity scaling are exact reals. Python's errors are the values of
`Builtins.Error`, returned in a `Result`:
- `KeyError`, `IndexError`, `ValueError`, `TypeError`, `ZeroDivisionError` and `AttributeError`;
- the program's own `MIDINotAvailable`.

Python's negative indexing, `int()` truncation, `round()` half-to-even and `list.index` are
written out in `Builtins`. Two tables are modelled as enumerations:
- note names, whose text is the string the program uses;
- modes and harmonisations.

Some program inputs become parameters:
- the clocks `time.time()` and `time.perf_counter()`;
- whether the MIDI library opens a port;
- the list of ports it reports;
- random draws.

`tracks.py` does not define the `MIDI_INIT` list that `player.py` imports, so it is a
constructor parameter. `exercise.py` does not define the `chord_notes` method the builder
calls, so it is a field of the `Sheet` record, which holds what the builder reads from an
exercise.

The code's docstring for `change_port` says it returns True on success, but the code falls off
its end and returns None. The model follows the code: success is `Ok(None)`.

## Model

| member | source | states |
|---|---|---|
| Midi.ChannelNibble | chord_exercise_partner/midi.py:9 | the status low nibble is in 0..15 and is channel - 1 for channels 1..16 |
| Midi.VelocityByte | chord_exercise_partner/midi.py:9 | the velocity byte is a data byte; for 0.0..1.0 it is velocity*127 truncated |
| Midi.NoteOn | chord_exercise_partner/midi.py:5-9 | three bytes, a note-on status (0x90..0x9F) for the channel, note mod 128, the velocity byte |
| Midi.NoteOff | chord_exercise_partner/midi.py:11-15 | three bytes, a note-off status (0x80..0x8F) for the channel, note mod 128, the velocity byte |
| Midi.ProgramChange | chord_exercise_partner/midi.py:17-21 | two bytes, status 0xC0..0xCF, a data byte that is program - 1 for programs 1..128 |
| Midi.SilenceChannel | chord_exercise_partner/player.py:96-98 | a control change on the channel for controller 120 (All Sound Off, not 123) with value 0 |
| Midi.Teardown | chord_exercise_partner/player.py:97-98 | sixteen messages, message c silencing channel c |
| Midi.DataBytesInRange | chord_exercise_partner/midi.py:9-21 | every byte after the status byte of every message is in 0..127 |
| Midi.ChannelWraps | chord_exercise_partner/midi.py:9-21 | channels c and c + 16 give identical messages |
| Midi.OnOffDifferInStatusOnly | chord_exercise_partner/midi.py:9-15 | note-on and note-off with the same arguments differ only by 0x10 in the status byte |
| Midi.DefaultNoteOffVelocity | chord_exercise_partner/midi.py:11-15 | a note-off with the default velocity has third byte 0 |
| Midi.VelocityScaling | chord_exercise_partner/midi.py:5-9 | velocities 1.0, 0.5 and 0.0 encode to 127, 63 and 0 |
| Midi.ProgramNumbersBijective | chord_exercise_partner/midi.py:17-21 | programs 1..128 map one-to-one onto data bytes |
| Tracks.DrumNotesHaveKeys | chord_exercise_partner/tracks.py:12-53 | a note of a well-formed pattern is a drum key on channel 10 with positive duration, never the chord placeholder |
| Tracks.LeadTrackShape | chord_exercise_partner/tracks.py:13-26 | the count-in is two well-formed bars, every stroke ends within its bar, and the last ends at the bar line |
| Tracks.StraightShape | chord_exercise_partner/tracks.py:29-41 | "straight" is one well-formed bar of drum notes |
| Tracks.SwingShape | chord_exercise_partner/tracks.py:42-53 | "swing" is one well-formed bar of drum notes |
| Tracks.MainTracksShape | chord_exercise_partner/tracks.py:28-55 | every main track is a single well-formed bar, and DEFAULT_TRACK is a main track |
| Notes.Parse | chord_exercise_partner/notes.py:16 | a key of the note-number table parses to the name with that text |
| Notes.ParseText | chord_exercise_partner/notes.py:16 | every name's text is a key of the table and reads back as that name |
| Notes.Number | chord_exercise_partner/notes.py:16 | every note number is a pitch class 0..11 |
| Notes.Spelling | chord_exercise_partner/notes.py:14 | each spelling table has twelve names |
| Notes.Scales | chord_exercise_partner/notes.py:18-21 | each mode has twelve scale roots |
| Notes.Harmonization | chord_exercise_partner/notes.py:23-64 | each harmonisation of each mode has seven degrees |
| Notes.NoteName | chord_exercise_partner/notes.py:66-69 | defined exactly for -12..11, where it is the flat or sharp spelling as FLATS says; IndexError otherwise |
| Notes.NoteNumber | chord_exercise_partner/notes.py:71-73 | defined exactly for the table's keys, giving their pitch class; KeyError otherwise |
| Notes.PitchClass | chord_exercise_partner/notes.py:79-81 | a name gives its note_number (KeyError for a non-name); a number n in -12..11 gives n % 12; IndexError for other numbers |
| Notes.ScaleRootName | chord_exercise_partner/notes.py:81-84 | the name chosen for a pitch class names a scale of the mode and has that pitch class |
| Notes.NormalizeScaleRoot | chord_exercise_partner/notes.py:75-84 | a scale name is returned as is; otherwise the result names a scale with the input's pitch class; the lookup's error otherwise |
| Notes.NormalizeIdempotent | chord_exercise_partner/notes.py:75-84 | normalising a normalised root changes nothing |
| Notes.ResolveRoot | chord_exercise_partner/notes.py:88-92 | the root's number has the input's pitch class; a number is normalised, a name is kept as given |
| Notes.SpellChord | chord_exercise_partner/notes.py:94-100 | the chord root name is entry pitchClass of the chosen spelling table |
| Notes.ChordName | chord_exercise_partner/notes.py:86-104 | defined exactly when the chord root can be spelled, with the same error otherwise |
| Notes.NoteNameRoundTrip | chord_exercise_partner/notes.py:66-73 | note_number undoes note_name, and both spellings of a pitch class have its number |
| Notes.SpellingNumbers | chord_exercise_partner/notes.py:10-16 | entry pc of each spelling table has pitch class pc |
| Notes.NoteNameUsesFlats | chord_exercise_partner/notes.py:66-69 | note_name spells with a flat iff FLATS is 1, except at F, where FLATS is 1 but the name has no flat |
| Notes.Mod12IsMod | chord_exercise_partner/notes.py:99 | the pitch-class reduction is Python's floored `% 12` |
| Notes.ChordRoot | chord_exercise_partner/notes.py:97-99 | the chord root is (root + the degree's interval) mod 12, with the degree's quality |
| Notes.ChordRootSpelling | chord_exercise_partner/notes.py:95-100 | the chord root's name has its pitch class, and uses flats iff the normalised root stands past position 5 of the scale list |
| Notes.ChordNameErrors | chord_exercise_partner/notes.py:86-97 | KeyError for a non-note name, ValueError for a name that is not a scale root, IndexError for a bad number or degree |
| Notes.TwoQualities | chord_exercise_partner/notes.py:102-104 | a degree with two qualities is named "<name><q1> or <name><q2>" |
| Notes.ChordNameSpelled | chord_exercise_partner/notes.py:86-104 | every name chord_name returns is the spelling of (root's pitch class + the degree's interval) % 12, from the flat table iff the normalised root stands past position 5, followed by the quality, or by each of two qualities joined with " or " |
| Notes.DominantOfC | chord_exercise_partner/notes.py:99-104 | degree 4 of C major is named "G or G7" |
| Notes.ChordNameDefined | chord_exercise_partner/notes.py:86-104 | every scale root with every degree 0..6 has a chord name |
| Notes.ScalesDistinct | chord_exercise_partner/notes.py:18-21 | no scale name appears twice in a mode's list |
| Notes.ScaleRootSpelling | chord_exercise_partner/notes.py:95-100 | the spelling picked by position spells each scale root as itself, except F♯ major and D♯ minor (as G♭ and E♭) |
| Notes.TonicSpelling | chord_exercise_partner/notes.py:86-104 | the tonic triad is named after the scale root, except for F♯ major (G♭) and D♯ minor (E♭m) |
| Progressions.Keys | chord_exercise_partner/progressions.py:15 | one name per table entry |
| Progressions.Find | chord_exercise_partner/progressions.py:21 | a failed lookup is a KeyError |
| Progressions.FindKeys | chord_exercise_partner/progressions.py:13-21 | a lookup succeeds iff the name is a key, and gives that key's entry |
| Progressions.Lookup | chord_exercise_partner/progressions.py:21 | an unknown name is a KeyError |
| Progressions.GetProgressions | chord_exercise_partner/progressions.py:13-15 | as many names as progressions |
| Progressions.GetProgressionsAreKeys | chord_exercise_partner/progressions.py:13-15 | the listed names are exactly the names that can be looked up |
| Progressions.ProgressionsAreDegrees | chord_exercise_partner/progressions.py:5-11 | every built-in progression is non-empty and made of degrees 0..6 |
| Progressions.Range | chord_exercise_partner/progressions.py:23 | every element of the range lies in [start, stop) |
| Progressions.RangeMembers | chord_exercise_partner/progressions.py:23 | x is in the range iff start <= x < stop and x - start is a multiple of the step |
| Progressions.Options | chord_exercise_partner/progressions.py:23-25 | there is always at least one option |
| Progressions.OptionsAreMultiples | chord_exercise_partner/progressions.py:22-25 | the options are the multiples of the base length up to the maximum, or the base length alone |
| Progressions.ProgressionLength | chord_exercise_partner/progressions.py:17-29 | defined exactly for known names; KeyError otherwise |
| Progressions.ProgressionLengthChoice | chord_exercise_partner/progressions.py:26-29 | the length is a positive multiple of the base, the base for a shorter suggestion, else within half a base of the suggestion |
| Progressions.ScaledDistance | chord_exercise_partner/progressions.py:28-29 | a rounded quotient times the divisor lies within half the divisor of the dividend |
| Progressions.Cycle | chord_exercise_partner/progressions.py:33 | the cycled list has the requested length |
| Progressions.CycleAt | chord_exercise_partner/progressions.py:33 | entry i of the cycled list is entry i mod len of the progression |
| Progressions.GetProgression | chord_exercise_partner/progressions.py:31-33 | defined for a known name and a length >= 0; KeyError for an unknown name, ValueError for a negative length |
| Progressions.GetProgressionCycles | chord_exercise_partner/progressions.py:31-33 | the result has the requested length and cycles the named progression |
| Exercises.GivenRoot | chord_exercise_partner/exercise.py:28-36 | the root before normalisation is the string, the note name of the int, or the drawn scale root; TypeError for other values |
| Exercises.GivenPitchClass | chord_exercise_partner/exercise.py:29-32 | a given root stands for a pitch class 0..11 |
| Exercises.GivenRootParses | chord_exercise_partner/exercise.py:28-38 | an int or drawn root is a valid note name with the expected pitch class |
| Exercises.ExerciseRoot | chord_exercise_partner/exercise.py:28-39 | the stored root names a scale of the mode, with the given root's pitch class or the drawn root; the errors of each path |
| Exercises.Durations | chord_exercise_partner/exercise.py:43-46 | a bar is four beats and a whole note, and whole note times tempo is 240 |
| Exercises.ChordNames | chord_exercise_partner/exercise.py:54 | one chord name per degree, each the chord name of that degree |
| Exercises.ProgressionDefined | chord_exercise_partner/exercise.py:50-54 | every degree of the progression has a chord name |
| Exercises.NewExercise | chord_exercise_partner/exercise.py:19-54 | built iff the root is accepted and tempo is non-zero; every field as the constructor assigns it, names aligned with degrees |
| Exercises.ExerciseTiming | chord_exercise_partner/exercise.py:44-46 | beat duration times tempo is 60 and whole-note duration times tempo is 240 |
| RandomHarmonization.Spelling | random_harmonization.py:17 | each spelling table has twelve names |
| RandomHarmonization.FromC | random_harmonization.py:13-16 | an index from A maps to a pitch class 0..11 |
| RandomHarmonization.TablesFromA | random_harmonization.py:13-16 | the A-based tables are the C-based ones rotated by nine semitones |
| RandomHarmonization.ScaleName | random_harmonization.py:54-56 | defined exactly for -12..11; IndexError otherwise |
| RandomHarmonization.ScaleNameAgreesWithNoteName | random_harmonization.py:54-56 | the scale name is the note's conventional name followed by "-major" |
| RandomHarmonization.SpellChord | random_harmonization.py:58-61 | defined exactly for degrees -7..6 and roots -12..11; the name is the table entry for the chord root |
| RandomHarmonization.ChordName | random_harmonization.py:58-62 | defined exactly for degrees -7..6 and roots -12..11; IndexError otherwise |
| RandomHarmonization.ChordRoot | random_harmonization.py:58-62 | the chord root is root + interval mod 12 with the degree's quality, spelled with flats iff the scale root's FLATS entry is 1 |
| RandomHarmonization.NewExercise | random_harmonization.py:65-77 | root in 0..11, its scale name, ten degrees, and chord names aligned with them |
| Ordering.EventLeTotalOrder | chord_exercise_partner/player.py:201 | tuple order on events is reflexive, total, antisymmetric and transitive |
| Ordering.Insert | chord_exercise_partner/player.py:201 | inserting into a sorted list keeps it sorted and adds exactly the event |
| Ordering.SortEvents | chord_exercise_partner/player.py:201 | the sorted list is sorted and a permutation of the input |
| Ordering.SortedUnique | chord_exercise_partner/player.py:201 | two sorted permutations of the same events are equal, so `sorted` has one possible result |
| Ordering.NoteOffFirst | chord_exercise_partner/player.py:201 | in a sorted list, at equal times, every note-off precedes every note-on |
| Ordering.Boundary | chord_exercise_partner/player.py:231-236 | events ending by t (note-offs at t) all precede events starting from t (note-ons at t) |
| Timeline.EventsPairs | chord_exercise_partner/player.py:189-200 | each sounded key gives two consecutive events, its note-on and then its note-off |
| Timeline.EventsMembers | chord_exercise_partner/player.py:189-200 | an event is generated iff it is the note-on or note-off of a sounded key |
| Timeline.NoteSounds | chord_exercise_partner/player.py:189-200 | a key note sounds once; a chord note sounds MIDDLE_C + each chord note inside the exercise and nothing outside it |
| Timeline.BarSteps | chord_exercise_partner/player.py:186 | the bar played is one of the pattern's bars |
| Timeline.CycledBar | chord_exercise_partner/player.py:186 | every bar played from a well-formed pattern is well formed |
| Timeline.BarMembers | chord_exercise_partner/player.py:186-200 | a key sounds in a bar iff a note of one of the bar's steps sounds it |
| Timeline.Origin | chord_exercise_partner/player.py:183-200 | a key sounds in the run iff some bar, step and note sound it |
| Timeline.PlayedTimes | chord_exercise_partner/player.py:184-200 | a sounded key starts at p0 + (song bar + offset) * bar_d, lasts duration * whn_d, and has its note's channel, velocity and key |
| Timeline.KeyOrigin | chord_exercise_partner/player.py:183-200 | the bar, step and note behind each sounded key, and its on and off times |
| Timeline.DrumRunKeys | chord_exercise_partner/player.py:189-200 | a run of a drum pattern sounds one key per note |
| Timeline.RunKeys | chord_exercise_partner/player.py:186-200 | a run of any pattern sounds one key per key note and, for the chord placeholder, one per chord note in exercise bars and none outside them |
| Timeline.RunEvents | chord_exercise_partner/player.py:186-200 | a run of any pattern holds two events per key it sounds |
| Timeline.DrumRunCount | chord_exercise_partner/player.py:189-200 | for a drum pattern the keys sounded are the notes, so a run has two events per note |
| Timeline.SingleBarTotal | chord_exercise_partner/player.py:186 | a single-bar pattern over n bars plays its bar n times |
| Timeline.Generated | chord_exercise_partner/player.py:179-200 | the appended events; ZeroDivisionError for tempo 0, or for an empty pattern with bars to fill |
| Timeline.Prepared | chord_exercise_partner/player.py:174-201 | the result is sorted and a permutation of the generated events; the same errors |
| Timeline.PreparedLength | chord_exercise_partner/player.py:201 | sorting keeps the number of events |
| Timeline.AppendNote | chord_exercise_partner/player.py:189-200 | the note's events are appended to the list |
| Timeline.AppendStep | chord_exercise_partner/player.py:186-200 | the step's notes' events, at the step's time, are appended |
| Timeline.AppendBar | chord_exercise_partner/player.py:186-200 | the bar's steps' events are appended |
| Timeline.AppendBars | chord_exercise_partner/player.py:183-200 | the loop over bars builds the events of every bar of the run, in order |
| Timeline.Run | chord_exercise_partner/player.py:183-200 | the run fails only for an empty pattern with bars to fill |
| Timeline.RunBars | chord_exercise_partner/player.py:183-200 | the method computes the run |
| Timeline.GeneratedRun | chord_exercise_partner/player.py:181-200 | the generated events are the run at bar_d and whn_d |
| Timeline.PrepareTrack | chord_exercise_partner/player.py:174-201 | the method returns the prepared, sorted events or the same error |
| Rebuild.KeyInBar | chord_exercise_partner/player.py:183-190 | each stroke of a run lies in a song bar of the run, at an offset in [0, 1), with positive duration |
| Rebuild.RunKeyEndsBy | chord_exercise_partner/player.py:183-190 | with whole note = bar, every stroke of a pattern that ends within its bars ends by the run's last bar line |
| Rebuild.RunKeyStartsFrom | chord_exercise_partner/player.py:183-190 | every stroke starts at or after the run's first bar line and has positive length |
| Rebuild.EventsEndBy | chord_exercise_partner/player.py:189-200 | such strokes give events by t, with only note-offs at t |
| Rebuild.EventsStartFrom | chord_exercise_partner/player.py:189-200 | such strokes give events from t, with only note-ons at t |
| Rebuild.SortKeepsBounds | chord_exercise_partner/player.py:201 | sorting keeps both bounds |
| Rebuild.LeadEndsBy | chord_exercise_partner/player.py:231-232 | the count-in's events end by the start of song bar 2, with only note-offs there |
| Rebuild.MainStartsFrom | chord_exercise_partner/player.py:233-236 | the main track's events start at song bar 2, with only note-ons there |
| Rebuild.LeadThenMain | chord_exercise_partner/player.py:231-236 | count-in followed by main track is sorted as a whole |
| Rebuild.LeadCount | chord_exercise_partner/player.py:231-232 | the count-in has twelve events |
| Rebuild.LeadStrokes | chord_exercise_partner/tracks.py:13-26 | the two count-in bars hold six strokes |
| Rebuild.MainCount | chord_exercise_partner/player.py:233-236 | a single-bar main track has two events per note per exercise bar |
| Rebuild.Rebuilt | chord_exercise_partner/player.py:231-236 | built iff the tempo is set and non-zero and the track is a main track; TypeError, ZeroDivisionError or KeyError otherwise |
| Rebuild.RebuiltSorted | chord_exercise_partner/player.py:231-236 | at a positive tempo, with bar = whole note > 0, the rebuilt list is sorted |
| Rebuild.RebuiltCount | chord_exercise_partner/player.py:231-236 | the rebuilt list has 12 + 2 * length * (notes of the main bar) events |
| Ports.OnFirstLineAt | chord_exercise_partner/player.py:26 | ".*:qjackctl" matches iff the text starts at some position with no line break before it |
| Ports.PortWeights | chord_exercise_partner/player.py:111-116 | weight 10 for a "Midi Through" prefix, else 20 for ":qjackctl" on the first line, else 0 |
| Ports.Enumerate | chord_exercise_partner/player.py:117 | entry i is port number i with name i |
| Ports.Names | chord_exercise_partner/player.py:118 | the names of the ports, in order |
| Ports.InsertAfter | chord_exercise_partner/player.py:117 | inserting after lighter or equal ports keeps weight order, adds the port, and keeps each weight's order |
| Ports.SortByWeight | chord_exercise_partner/player.py:117 | weight-ordered, a permutation, and each weight's ports in their original order (stable) |
| Ports.StableUnique | chord_exercise_partner/player.py:117 | a stable sort by weight has exactly one possible result |
| Ports.Ranked | chord_exercise_partner/player.py:117 | one ranked entry per listed port |
| Ports.RankedEntry | chord_exercise_partner/player.py:117 | each ranked entry is a listed port under its own number |
| Ports.AvailablePorts | chord_exercise_partner/player.py:118 | the ranked names followed by "<virtual>" |
| Ports.AvailablePortsShape | chord_exercise_partner/player.py:101-119 | the listed names rearranged, weights non-decreasing, ties in the order the library lists them |
| Ports.NamesPermutation | chord_exercise_partner/player.py:118 | permuted ports have permuted names |
| Ports.InitialPort | chord_exercise_partner/player.py:63-79 | the best-ranked port if there is one and it opens, else the virtual port, else MIDINotAvailable |
| Ports.InitialPortBest | chord_exercise_partner/player.py:63-68 | the chosen port has the least weight, and is the first listed port of that weight |
| Ports.Lookup | chord_exercise_partner/player.py:141-146 | found iff a port has the name; then the number of the first such port |
| Ports.LookupRanked | chord_exercise_partner/player.py:141-146 | a name is found in the ranked list iff it is listed, and its number lists that name |
| Player.PlayList | chord_exercise_partner/player.py:231-236 | the two prepare_track calls and the main track lookup compute Rebuilt |
| Player.CompPlayer.constructor | chord_exercise_partner/player.py:40-79 | every field as `__init__` sets it, with the chosen port and the available ports |
| Player.CompPlayer.Open | chord_exercise_partner/player.py:54-79 | MIDINotAvailable without the library, when listing fails, or when no port opens; otherwise a player on InitialPort's choice, with the listed ports ranked, and every other field as `__init__` sets it: no exercise, start times, track or tempo, quit and update false, an empty play list and nothing sent |
| Player.CompPlayer.Start | chord_exercise_partner/player.py:203-211 | sets exercise, track and tempo, clears the start time, requests a rebuild |
| Player.CompPlayer.StartedAt | chord_exercise_partner/player.py:212-214 | start returns the start time once it is truthy |
| Player.CompPlayer.Stop | chord_exercise_partner/player.py:257-261 | clears the exercise |
| Player.CompPlayer.ChangeTrack | chord_exercise_partner/player.py:157-162 | sets the track and requests a rebuild |
| Player.CompPlayer.ChangeTempo | chord_exercise_partner/player.py:164-172 | sets tempo and update; moves both start times together, keeping their difference, iff both starts are truthy |
| Player.CompPlayer.Begin | chord_exercise_partner/player.py:219-226 | at the loop head quit ends the thread; no exercise waits, and a waiting thread keeps waiting whatever quit says; an exercise ends the wait, both clocks are read and the play list emptied |
| Player.CompPlayer.BeginIntended | chord_exercise_partner/player.py:219-226 | the outer loop with a wait that also gives up on quit: the thread ends iff told to quit |
| Player.QuitWhileIdle | chord_exercise_partner/player.py:88-94 | a thread told to quit while waiting for an exercise stays alive through any number of wake-ups |
| Player.QuitEndsIdle | chord_exercise_partner/player.py:88-94 | with the intended wait, the same thread ends on its next wake-up |
| Player.CompPlayer.SendInit | chord_exercise_partner/player.py:229-230 | MIDI_INIT is sent to the port in order; with no port the first send fails |
| Player.CompPlayer.RebuildList | chord_exercise_partner/player.py:228-237 | MIDI_INIT sent, then the play list becomes Rebuilt's result and update is cleared, or the error is kept with list and flag unchanged |
| Player.CompPlayer.Dispatch | chord_exercise_partner/player.py:238-250 | the head leaves iff due, is sent iff within the window and a port is set, played out iff it was the last, continues iff it was due and the next is due by the second clock reading, else sleeps for a positive time; order kept |
| Player.CompPlayer.Tick | chord_exercise_partner/player.py:227-253 | the loop test ends the pass and clears start time and exercise; otherwise the pass is what `Passed` states: the play list is the rebuilt one after a rebuild, else the old one; the error that ends the thread is the first send's AttributeError, the rebuild's own error or the IndexError of an empty list; the sends are MIDI_INIT then the head when in window; the outcome is PlayedOut, Continues or a sleep of exactly the time to the next event; a played-out list clears start time and exercise |
| Player.CompPlayer.Pass | chord_exercise_partner/player.py:228-250 | `Passed`: a rebuild when asked, then dispatch; IndexError on an empty list; sends are MIDI_INIT then the head when in window; played out iff the head was due and last; continues iff it was due and the next is due by the second reading; otherwise sleeps `ev_time - now` for the next event (or the head when it was not due) |
| Player.CompPlayer.ChangePort | chord_exercise_partner/player.py:121-155 | refreshes the list; switches only to a different, known port that opens; success returns None, everything else False |
| Player.CompPlayer.Teardown | chord_exercise_partner/player.py:88-99 | sets quit, sends All Sound Off on the sixteen channels when there is a port, then drops the port |

## Findings

| source | as written | input that shows it | evidently intended | confidence | as-written member | corrected member |
|---|---|---|---|---|---|---|
| chord_exercise_partner/player.py:220-222 | `quit` is tested only at the head of the outer loop; the wait `while not self.exercise: self.cond.wait(0.1)` never tests it | the thread is idle (no exercise) when `__del__` sets `quit`: the thread keeps waiting, `self.thread` is never cleared, and `__del__` always sleeps its full 1000 × 0.01 s. The running thread holds `self.run` and so the player, so garbage collection does not reach `__del__`: this happens on an explicit `__del__()` call or in finalisation at interpreter shutdown | the idle wait also ends when `quit` is set, so the thread ends and `__del__` stops waiting at once | not executed; high | Player.CompPlayer.Begin, Player.QuitWhileIdle | Player.CompPlayer.BeginIntended, Player.QuitEndsIdle |

Begin models the wake-up as written and BeginIntended the corrected one. No other member calls
either, so the rest of the model is the same under both.

## Left out

- Threads: the lock, the condition variable and its timed waits, the thread object, and
  `start`'s wait for the player thread. Each method is one critical section. The waits
  become outcomes (`Sleeps`, `Idle`).
- The race when `start` is called while an exercise is playing: the running inner loop sees the
  cleared start time and ends. That is modelled as one `Tick`, not the interleaving. The ending
  loop also clears the exercise `start` has just set (player.py:251-252). The thread then waits
  idle, and `start` waits for a start time that never comes (player.py:212-213). In the model,
  `Tick` after `Start` returns `Ended` with no exercise, and `StartedAt`'s precondition cannot
  then be met.
- `__del__`'s wait of up to 1000 × 0.01 s for the thread to end. Teardown does not wait.
- The MIDI library (`MidiOut`, `get_ports`, `open_port`, `open_virtual_port`, `send_message`):
  - its results are parameters;
  - sends go to a log;
  - `close_port` on the old port is not recorded.
- The clocks `time.time()` and `time.perf_counter()`: parameters.
- Floating point: times, durations and velocities are exact reals. No IEEE rounding is modelled.
- `print` output, including `__init__`'s print of the selected port.
- `random.seed`, `random.choice` and `random.randint`: their results are parameters.
- `MIDI_INIT` (imported from tracks.py, which does not define it): a constructor parameter.
- `exercise.chord_notes` (called by `prepare_track`, not defined by exercise.py): the
  `chordNotes` field of `Sheet`.
- Unknown mode or harmonisation strings, which are KeyErrors in the code. Both are
  enumerations here, so they cannot occur.
- Arguments of a type other than int or str, except where the code checks for them
  (exercise.py's TypeError):
  - a note given to `note_name`;
  - a note given to `normalize_scale_root`;
  - a root given to `chord_name`.
- The user interface (ui.py), the timing self-tests (timing.py), the version checker, packaging,
  and the `ChordTester` window of random_harmonization.py.
- Midi.VelocityByte: for velocities outside 0.0..1.0 the contract states only the byte range,
  not the truncated value.
- Notes.SpellChord: its contract states only the table entry. The pitch class and the choice of
  spelling are stated by Notes.ChordRoot and Notes.ChordRootSpelling.
