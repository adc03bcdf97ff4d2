# Musical notes tool — a verified model of its core

This project models, in Dafny, the logic at the centre of the musical notes tool, a React application. The tool listens to the microphone or to an uploaded audio file and names the note being sung or played. It also offers a small piano that records sequences of notes, and a metronome. The model has one module per source file:

- `PitchDetector` (`pitch_detector.dfy`): the YIN fundamental-frequency estimator. It follows steps 2–5 of de Cheveigné and Kawahara, "YIN, a fundamental frequency estimator for speech and music" (JASA 2002, section II).
  - The squared-difference profile and the cumulative-mean normalisation are written in place into an `array<real>`, in loops as the source does.
  - The lag search is a loop over the normalised profile.
  - The parabolic refinement, the probability and the lag-to-Hz conversion are pure functions.
- `PianoNotes` (`piano_notes.dfy`): the 36-entry key catalogue C3…B5 and the English and Spanish pitch-class names.
- `AudioFileAnalyzer` and `MicrophoneAnalyzer` (`audio_file_analyzer.dfy`, `microphone_analyzer.dfy`):
  - `findClosestNote`, which takes a frequency to a MIDI note number with A4 = 69 = 440 Hz, builds the note identifier, and looks it up in the catalogue;
  - the "pitch above 0" gate before a note is reported;
  - the `m:ss` time formatter.
- `Piano` (`piano.dfy`): the sequence editor of the piano component.
  - The list transforms (append, change a duration, remove at an index, update or delete by id, merge an import) are pure functions.
  - The component's state is the class `PianoState`, one method per handler, plus the effect that loads the selected sequence.
- `Metronome` (`metronome.dfy`) and `MusicalNoteDetector` (`note_detector.dfy`): the metronome's counter and tempo bounds, and the switch between microphone and file analysis, as classes with an invariant.
- `JsText` and `Wrappers` hold JavaScript's number-to-text conversion, `Math.round`/`Math.floor`, the truncating `%` and `String.prototype.trim`, and `Option`.

Two JavaScript details the model spells out:

- JavaScript's `%` keeps the sign of the dividend. A negative rounded note number therefore gives a non-positive pitch-class index. The index -0 reads "C", and any other negative index reads `undefined`, which then becomes the text "undefined".
- A React handler is modelled as the state after React applies the updates the handler queued, in order. Functional updates see the earlier updates, while plain reads see the state of the render in which the handler ran.

## Model

| member | source | states |
|---|---|---|
| PitchDetector.Difference | src/utils/pitch-detector.js:49-60 | fills the profile in place: entry τ becomes Σ_{i<half} (x[i] − x[i+τ])², the function `DifferenceProfile` of the input; needs an input of at least 2·half − 1 samples |
| PitchDetector.DifferenceProfileShape | src/utils/pitch-detector.js:52-58 | every profile entry is non-negative and entry 0 is exactly 0 |
| PitchDetector.SquaredDifferenceSumNonNegative | src/utils/pitch-detector.js:55-58 | a sum of squared differences is never negative |
| PitchDetector.SquaredDifferenceSumAtZeroLag | src/utils/pitch-detector.js:52-58 | at lag 0 every difference is 0, so the sum is 0 |
| PitchDetector.SquaredDifferenceSumOfConstant | src/utils/pitch-detector.js:52-58 | a constant window has a zero sum at every lag |
| PitchDetector.CumulativeMeanNormalizedDifference | src/utils/pitch-detector.js:66-74 | rewrites the profile in place, with a running sum, into `CumulativeMeanNormalized` of the old profile |
| PitchDetector.CumulativeMeanNormalizedProperty | src/utils/pitch-detector.js:67-73 | entry 0 becomes 1; for τ ≥ 1 the new value times Σ_{j=1..τ} d[j] equals τ·d[τ]; values stay non-negative |
| PitchDetector.CumulativeMeanNormalizedScaleInvariant | src/utils/pitch-detector.js:66-74 | scaling the raw profile by any positive factor leaves the normalised profile unchanged |
| PitchDetector.RunningSumNonNegative | src/utils/pitch-detector.js:71 | the running sum of a non-negative profile is non-negative and bounds each of its terms |
| PitchDetector.RunningSumScaled | src/utils/pitch-detector.js:71 | the running sum of a scaled profile is the scaled running sum |
| PitchDetector.FirstGlobalMinimumUnique | src/utils/pitch-detector.js:90-98 | the lag the search returns (smallest index attaining the minimum over [16, len−2]) is unique |
| PitchDetector.WalkBack | src/utils/pitch-detector.js:99-105 | the backward walk stops at a point no higher than where it started, after a strictly rising run |
| PitchDetector.ScanForward | src/utils/pitch-detector.js:108-115 | the forward scan returns the first lag below the threshold in the range, or the end of the range |
| PitchDetector.AbsoluteThreshold | src/utils/pitch-detector.js:81-119 | returns −1 exactly when no lag in [16, len−2] is below 0.15; otherwise the first global minimum of that range, which is below 0.15; so the backward walk never moves and the fallback at line 115 is never taken |
| PitchDetector.ParabolicInterpolation | src/utils/pitch-detector.js:127-149 | τ unchanged at the boundaries; NaN exactly when the three neighbours are equal; τ unchanged when the points lie on a line that is not flat; otherwise within 1 of τ, and a moved result is the vertex of the parabola through the three points |
| PitchDetector.ParabolicInterpolationRefines | src/utils/pitch-detector.js:138-148 | where the three points bend, τ moves to the parabola's vertex exactly when the vertex lies within 1 of τ, and stays put otherwise |
| PitchDetector.GetProbability | src/utils/pitch-detector.js:157-165 | 0 for τ = −1, otherwise 1 − profile[τ] |
| PitchDetector.CandidateProbability | src/utils/pitch-detector.js:157-165 | for the lag the search returns, the probability exceeds 0.85 |
| PitchDetector.FrequencyBounds | src/utils/pitch-detector.js:41 | for a refined lag in [15, 1023] and a positive rate, rate/lag lies in [rate/1023, rate/15] |
| PitchDetector.Frequency | src/utils/pitch-detector.js:41 | `sampleRate / betterTau`: NaN exactly when the refined lag is NaN, otherwise the number that times the lag gives the rate |
| PitchDetector.GetPitch | src/utils/pitch-detector.js:19-42 | −1 exactly when no lag of the YIN profile of the buffer is below the threshold; otherwise rate / refined first global minimum, which lies in [rate/1023, rate/15] |
| PitchDetector.ConstantWindowHasNoPitch | src/utils/pitch-detector.js:19-42 | a constant (for example silent) window yields no pitch |
| PianoNotes.TableSize | src/constants/piano-notes.js:43-85 | the catalogue has 36 entries, from C3 to B5 |
| PianoNotes.NoteStringsShape | src/constants/piano-notes.js:87-115 | both name tables have 12 entries; the English names are pairwise distinct |
| PianoNotes.PitchClassIndexAt | src/constants/piano-notes.js:87-100 | looking a pitch-class name up in the table gives back its position |
| PianoNotes.NoteStringsAreNames | src/constants/piano-notes.js:87-100 | pitch-class names are 1–2 characters without digits or '-', and contain '#' exactly at positions 1, 3, 6, 8, 10 |
| PianoNotes.EntryLayout | src/constants/piano-notes.js:45-84 | entry k is `noteStrings[k mod 12]` + octave digit 3 + k div 12; its name is `spanishNoteStrings[k mod 12]`, followed by "₅" in octave 5; its key is black exactly for the sharps |
| PianoNotes.LayoutOctave3 | src/constants/piano-notes.js:45-58 | the layout above for octave 3 |
| PianoNotes.LayoutOctave4 | src/constants/piano-notes.js:59-71 | the layout above for octave 4 |
| PianoNotes.LayoutOctave5 | src/constants/piano-notes.js:72-84 | the layout above for octave 5 |
| PianoNotes.NotesDistinct | src/constants/piano-notes.js:45-84 | no two entries share an identifier |
| PianoNotes.BlackKeysAreSharps | src/constants/piano-notes.js:45-84 | an entry's key is black exactly when its identifier contains '#' |
| PianoNotes.SplitAtNumber | src/components/AudioFileAnalizer.jsx:166-170 | an identifier splits uniquely into a pitch-class name and the number text after it |
| PianoNotes.FindByNote | src/components/AudioFileAnalizer.jsx:173 | `find` by identifier: None exactly when no entry matches, otherwise the first matching entry |
| PianoNotes.FindOwnNote | src/components/AudioFileAnalizer.jsx:173 | looking up an entry's own identifier finds that entry |
| AudioFileAnalyzer.NoteNameInRange | src/components/AudioFileAnalizer.jsx:163-170 | for a note number n in [48, 83] the built identifier is that of entry n − 48 |
| AudioFileAnalyzer.NoteName | src/components/AudioFileAnalizer.jsx:163-171 | the identifier built for n: pitch class n mod 12 and octave ⌊n/12⌋ − 1 for n ≥ 0 or a multiple of 12; "undefined" and the octave for any other negative n, because JavaScript's `%` is then negative |
| AudioFileAnalyzer.NoteNameDeterminesNumber | src/components/AudioFileAnalizer.jsx:163-173 | if the identifier built from n matches entry i, then n = 48 + i |
| AudioFileAnalyzer.NoteLookup | src/components/AudioFileAnalizer.jsx:163-176 | the lookup succeeds exactly for n in [48, 83], and then finds entry n − 48 |
| AudioFileAnalyzer.NoteForNumber | src/components/AudioFileAnalizer.jsx:163-176 | for a rounded note number: an entry exactly when it is in [48, 83], namely entry n − 48, whose identifier is the one built |
| AudioFileAnalyzer.FindClosestNote | src/components/AudioFileAnalizer.jsx:156-177 | with n = Math.round(12·log2(f/440) + 69): non-null exactly when n is in [48, 83], and then `pianoNotes[n − 48]`, whose identifier is pitch class + octave |
| AudioFileAnalyzer.ConcertPitchIsA4 | src/components/AudioFileAnalizer.jsx:162-174 | 440 Hz maps to the "A4" entry, named "La" |
| AudioFileAnalyzer.FindClosestNoteMonotonic | src/components/AudioFileAnalizer.jsx:162-176 | a higher frequency never maps to an earlier entry |
| AudioFileAnalyzer.ReportedNote | src/components/AudioFileAnalizer.jsx:142-148 | a note (possibly null) is reported only for a pitch that is a number above 0 |
| AudioFileAnalyzer.NoReportWithoutPitch | src/components/AudioFileAnalizer.jsx:144 | neither the −1 sentinel nor NaN is reported |
| AudioFileAnalyzer.FormatTimeReadsBack | src/components/AudioFileAnalizer.jsx:196-200 | for t ≥ 0: minutes, ':', then exactly two digits below 60; 60·minutes + seconds = ⌊t⌋ |
| AudioFileAnalyzer.FormatTime | src/components/AudioFileAnalizer.jsx:196-200 | at least four characters; for t ≥ 0 a ':' followed by two digits at the end; a negative time starts with '-' |
| AudioFileAnalyzer.MinutesAndSeconds | src/components/AudioFileAnalizer.jsx:197-198 | the two printed numbers split ⌊t⌋ into minutes and seconds below 60 |
| AudioFileAnalyzer.SecondsText | src/components/AudioFileAnalizer.jsx:199 | the padded seconds text is two digits that read back as the seconds |
| MicrophoneAnalyzer.NoteForNumber | src/components/MicrophoneAnalyzer.jsx:84-95 | non-null exactly when the rounded note number is in [48, 83]; then entry n − 48, whose identifier is the one built |
| MicrophoneAnalyzer.FindClosestNote | src/components/MicrophoneAnalyzer.jsx:82-96 | gives the same result as the audio file analyser's `findClosestNote` for every frequency |
| MicrophoneAnalyzer.ReportedNote | src/components/MicrophoneAnalyzer.jsx:49-54 | a note is reported only for a pitch that is a number above 0 |
| Piano.UpdateDuration | src/components/Piano.jsx:152-158 | keeps the length; only item i changes, and only in its duration; an index out of range changes nothing |
| Piano.UpdateDurationLastWins | src/components/Piano.jsx:152-158 | setting an item's duration twice keeps only the second value |
| Piano.KeepOtherPositions | src/components/Piano.jsx:161 | the position-filter removes exactly the position asked for, or nothing when no position matches |
| Piano.RemoveAt | src/components/Piano.jsx:160-162 | removes exactly the item at i, keeping the order of the rest; an index out of range changes nothing |
| Piano.RemoveAtShifts | src/components/Piano.jsx:160-162 | after removal, items before i stay and items after it move one place left |
| Piano.FindById | src/components/Piano.jsx:34-36 | `find` by id: None exactly when no sequence has the id, otherwise the first one that does |
| Piano.UpdateById | src/components/Piano.jsx:190-194 | keeps the length and every id; sequences with the id get the name and notes; the others are unchanged |
| Piano.UpdateByIdThenFind | src/components/Piano.jsx:190-194 | after the update the set of ids is the same and looking the id up finds the new contents |
| Piano.AppendedId | src/components/Piano.jsx:186 | appending a sequence adds exactly its id to the set of ids |
| Piano.DeleteById | src/components/Piano.jsx:199 | a sequence is kept exactly when its id differs; the id is gone; an absent id changes nothing |
| Piano.DeleteByIdAppend | src/components/Piano.jsx:199 | the filter works element by element: deleting from a + b is deleting from a, then from b, so order and repetitions are kept |
| Piano.DeleteByIdSingle | src/components/Piano.jsx:199 | a single sequence is kept exactly when its id differs; with the lemma above this fixes the result for every list |
| Piano.DeleteByIdAt | src/components/Piano.jsx:199 | with unique ids, deleting the id at position k removes exactly position k and keeps the order of the rest |
| Piano.TailUnique | src/components/Piano.jsx:199 | the tail of a list with unique ids has unique ids, none equal to the head's |
| Piano.NotIn | src/components/Piano.jsx:249-251 | an imported sequence is kept exactly when its id is not already present |
| Piano.NotInAppend | src/components/Piano.jsx:249-251 | the filter works element by element: filtering a + b is filtering a, then b, so order and repetitions are kept |
| Piano.NotInSingle | src/components/Piano.jsx:249-251 | a single sequence is kept exactly when its id is new; with the lemma above this fixes the result for every list |
| Piano.AllNew | src/components/Piano.jsx:249-251 | when no imported id is present, the whole imported list is kept unchanged |
| Piano.NothingNew | src/components/Piano.jsx:249-251 | when every imported id is present, nothing is kept |
| Piano.MergeImported | src/components/Piano.jsx:244-254 | the old list stays as a prefix; what follows is the filter `NotIn` of the imported list by the old ids (so the imported sequences with new ids, in order, repetitions kept); the ids are the union |
| Piano.MergeImportedIdempotent | src/components/Piano.jsx:244-254 | importing the same list a second time changes nothing |
| Piano.MergeKeepsDuplicatesWithinImport | src/components/Piano.jsx:244-254 | when no imported id is listed yet, the merge is the old list followed by the whole imported list: duplicates within the import are not removed |
| Piano.NotInKeepsUnique | src/components/Piano.jsx:249-251 | filtering a list with unique ids keeps them unique |
| Piano.MergeKeepsUnique | src/components/Piano.jsx:244-254 | merging two lists with unique ids gives unique ids |
| Piano.SavedName | src/components/Piano.jsx:177 | the trimmed name, or "Secuencia sin nombre" when the name is only whitespace; never empty |
| Piano.NotesMatch | src/components/Piano.jsx:47-50 | true exactly when both notes are set, non-empty and equal |
| Piano.NotesMatchSymmetric | src/components/Piano.jsx:47-50 | the match is symmetric and false before any key was played |
| Piano.PianoState.constructor | src/components/Piano.jsx:6-24 | the initial state: saved list, nothing selected, empty sequence and name, not recording, 0.5 s |
| Piano.PianoState.PlayPianoNote | src/components/Piano.jsx:52-69 | remembers the key; while recording, appends exactly one note item at the end, otherwise the sequence is unchanged |
| Piano.PianoState.AddPause | src/components/Piano.jsx:71-81 | while recording, appends exactly one pause at the end, otherwise the sequence is unchanged |
| Piano.PianoState.ToggleRecording | src/components/Piano.jsx:83-88 | flips recording and leaves playback stopped |
| Piano.PianoState.ClearSequence | src/components/Piano.jsx:90-92 | empties the sequence |
| Piano.PianoState.HandleDurationChange | src/components/Piano.jsx:148-150 | sets the duration used for new items |
| Piano.PianoState.UpdateNoteDuration | src/components/Piano.jsx:152-158 | the sequence becomes `UpdateDuration` of the old one |
| Piano.PianoState.RemoveNoteFromSequence | src/components/Piano.jsx:160-162 | the sequence becomes `RemoveAt` of the old one |
| Piano.PianoState.CreateNewSequence | src/components/Piano.jsx:165-172 | recording off, nothing selected, empty sequence, name "Nueva secuencia"; the selection stays valid |
| Piano.PianoState.SaveCurrentSequence | src/components/Piano.jsx:174-196 | nothing on an empty sequence; with nothing selected, appends one sequence with the given id and selects it; otherwise updates by the selected id; a save replaces the list array; the selection stays valid |
| Piano.PianoState.DeleteSequence | src/components/Piano.jsx:198-205 | the list becomes `DeleteById` of the old one, as a new array; a selected id clears the selection, sequence and name; otherwise those are unchanged |
| Piano.PianoState.ImportSequences | src/components/Piano.jsx:244-254 | the list becomes the merge of the old list and the imported one, as a new array even when nothing was added |
| Piano.PianoState.SelectSequence | src/components/Piano.jsx:345 | selects a listed sequence |
| Piano.PianoState.SetSequenceName | src/components/Piano.jsx:445 | the name field takes the typed text |
| Piano.PianoState.RunSelectionEffect | src/components/Piano.jsx:32-45 | when the selection changed since its last run, or the list was replaced by a new array (React compares dependencies by identity): loads the selected sequence's notes and name, or empties both when nothing is selected |
| Piano.ImportOfKnownIdsClearsRecording | src/components/Piano.jsx:32-45 | with nothing selected, importing only known ids still replaces the list, and the effect then empties the unsaved recording |
| Piano.PianoState.CreateNewSequenceAndRender | src/components/Piano.jsx:32-45 | "new sequence" followed by the effect: the name ends empty when a sequence had been selected |
| Piano.NewSequenceNameAfterSave | src/components/Piano.jsx:165-196 | record, save, then "new sequence": the name field ends up empty |
| Piano.PianoState.RunSelectionEffectIntended | src/components/Piano.jsx:32-45 | the effect without its clearing branch: loads a selected sequence, leaves the editor alone otherwise |
| Piano.PianoState.CreateNewSequenceAndRenderIntended | src/components/Piano.jsx:165-172 | with that effect the name is always "Nueva secuencia" |
| Metronome.NextCount | src/components/Metronome.jsx:43 | the next count stays in [0, beats), wraps to 0 exactly after the last beat, and otherwise goes up by one |
| Metronome.IsAccent | src/components/Metronome.jsx:36 | `count % beatsPerMeasure === 0` holds exactly when count is a multiple of the measure, negative counts included |
| Metronome.CountAfterIsRemainder | src/components/Metronome.jsx:35-44 | from the start of a measure the count after k clicks is k mod beats, so exactly every beats-th click is accented when each click reads the current count (the interval's clicks read a stale count, see "Left out") |
| Metronome.AccentOnlyAtZero | src/components/Metronome.jsx:36 | within a measure only count 0 is accented |
| Metronome.NextCountIsSuccessor | src/components/Metronome.jsx:43 | the next count of k mod beats is (k + 1) mod beats |
| Metronome.SliderBpm | src/components/Metronome.jsx:54-59 | the tempo changes only to a parsed value in [40, 240]; otherwise it is unchanged |
| Metronome.DecreasedBpm | src/components/Metronome.jsx:136 | max(40, bpm − 5): either 40 or bpm − 5, and at least both |
| Metronome.IncreasedBpm | src/components/Metronome.jsx:152 | min(240, bpm + 5): either 240 or bpm + 5, and at most both |
| Metronome.ButtonsKeepRange | src/components/Metronome.jsx:136-152 | from a tempo in [40, 240] both buttons stay in range, and an unclamped step down and up returns to the start |
| Metronome.NumberFieldBpm | src/components/Metronome.jsx:147 | the parsed value, or 100 when it is NaN or 0; never 0 and not range-checked |
| Metronome.NumberFieldIgnoresRange | src/components/Metronome.jsx:147 | the number field accepts 1000 and −5, which the slider refuses |
| Metronome.Metronome.constructor | src/components/Metronome.jsx:4-7 | 100 bpm, stopped, count 0, 4 beats per measure |
| Metronome.Metronome.PlayClick | src/components/Metronome.jsx:35-44 | accent exactly when count mod beats = 0; the count becomes (count + 1) mod beats and stays in [0, beats) |
| Metronome.Metronome.StartStop | src/components/Metronome.jsx:46-52 | flips playing; when starting, clicks once, with the accent decided by the count from before the reset; the count becomes 1 mod beats |
| Metronome.Metronome.StartStopIntended | src/components/Metronome.jsx:46-52 | the same with the reset taking effect first: the first click is always the accent |
| Metronome.RestartAfterTwoClicks | src/components/Metronome.jsx:46-52 | start, click, stop, start: the click of the second start is not accented |
| Metronome.RestartAfterTwoClicksIntended | src/components/Metronome.jsx:46-52 | the same run with the intended start accents that click |
| Metronome.Metronome.HandleBpmChange | src/components/Metronome.jsx:54-59 | the tempo becomes `SliderBpm` of the old tempo |
| Metronome.Metronome.DecreaseBpm | src/components/Metronome.jsx:136 | the tempo becomes `DecreasedBpm` of the old tempo |
| Metronome.Metronome.IncreaseBpm | src/components/Metronome.jsx:152 | the tempo becomes `IncreasedBpm` of the old tempo |
| Metronome.Metronome.SetBpmFromField | src/components/Metronome.jsx:147 | the tempo becomes `NumberFieldBpm` of the parsed text |
| Metronome.Metronome.HandleBeatsPerMeasureChange | src/components/Metronome.jsx:61-67 | a value in [2, 12] becomes the measure and resets the count to 0; anything else changes nothing; the count stays a beat of the measure |
| MusicalNoteDetector.NoteDetector.constructor | src/MusicalNoteDetector.jsx:11-13 | microphone off, no file, no note |
| MusicalNoteDetector.NoteDetector.HandleFileUpload | src/MusicalNoteDetector.jsx:16-21 | a file is loaded and turns the microphone off; no file changes nothing; never microphone and file together |
| MusicalNoteDetector.NoteDetector.ToggleMicrophone | src/MusicalNoteDetector.jsx:23-27 | flips the microphone only while no file is loaded |
| MusicalNoteDetector.NoteDetector.ClearAudioFile | src/MusicalNoteDetector.jsx:29-37 | no file, no note, microphone off |
| MusicalNoteDetector.NoteDetector.SetCurrentNote | src/MusicalNoteDetector.jsx:81 | the reported note becomes the current note |
| MusicalNoteDetector.NoteDetector.MicrophoneAnalyzerShown | src/MusicalNoteDetector.jsx:80-82 | the microphone analyser is shown exactly when the microphone is on and no file is loaded |
| MusicalNoteDetector.NoteDetector.FileAnalyzerShown | src/MusicalNoteDetector.jsx:84-89 | the file analyser is shown exactly when a file is loaded |
| MusicalNoteDetector.NoteDetector.DetectedName | src/MusicalNoteDetector.jsx:102 | the piano is told the current note's display name, or nothing |
| MusicalNoteDetector.NoteDetector.AtMostOneAnalyzer | src/MusicalNoteDetector.jsx:80-89 | never both analysers; in a valid state the microphone analyser is shown exactly when the microphone is on |
| JsText.NatToStringRoundTrip | src/components/AudioFileAnalizer.jsx:166-170 | the decimal text of a number reads back as that number |
| JsText.IntToString | src/components/AudioFileAnalizer.jsx:166-170 | String(i): a leading '-' exactly for negatives, then the decimal digits of the absolute value, with no leading zero |
| JsText.JsRound | src/components/AudioFileAnalizer.jsx:164-165 | `Math.round`: the integer within half of x, halves rounded up |
| JsText.JsFloor | src/components/AudioFileAnalizer.jsx:165 | `Math.floor`: the largest integer not above x |
| JsText.JsRemainder | src/components/AudioFileAnalizer.jsx:164 | JavaScript's `%` on integers: congruent to the dividend modulo b, in [0, b) for a non-negative dividend and in (−b, 0] for a negative one |
| JsText.JsRealRemainder60 | src/components/AudioFileAnalizer.jsx:198 | `time % 60`: in [0, 60) for t ≥ 0 and with the floor of ⌊t⌋ mod 60 |
| JsText.Trim | src/components/Piano.jsx:177 | `trim()`: the text with whitespace-only runs removed at both ends; empty exactly when all whitespace |

## Left out

- Web Audio, capture and scheduling are not modelled: `getUserMedia`, the audio graph, `requestAnimationFrame`, the `Audio` objects that play sounds, and event listeners. Each analyser's per-frame step is modelled only as its pitch gate.
- Timed playback (`playSequence`, `playAllSequences`) and the metronome's `setInterval` are not modelled, because they are timing and concurrency rather than logic. This includes the stale `count` that the interval's `playClick` closure keeps seeing.
- Storage and files are not modelled: localStorage, JSON parsing and printing, the export download and the `FileReader`. The saved list is a parameter of the constructor, the parsed import is a parameter of `ImportSequences`, and `Date.now()` is the parameter `now`.
- Floating-point numbers are not modelled: samples and profile values are `real`. Float32 rounding of the profile, the accuracy of the detector on real signals, and `Math.log2` are not modelled; `log2` is a parameter of the mapping functions.
- PitchDetector.CumulativeMeanNormalizedDifference: when the running sum is 0 the source computes 0 · (τ / 0) = 0 · ∞ = NaN; the model writes 1 there. The raw entry is 0 in that case. NaN and 1 both fail every comparison the lag search makes (`< minValue` with minValue ≤ 1, and `< 0.15`), so the search behaves the same.
- PitchDetector.Difference and PitchDetector.GetPitch: they require an input of at least 2047 samples, because the source reads `buffer[i + tau]` up to index 2046 and reading past the end gives `undefined`/NaN. GetPitch also requires a positive sample rate.
- PitchDetector.GetPitch: the result when the refined lag is NaN is NaN, and the bounds are stated only for numeric results.
- The `probabilityThreshold` setting is never read by the source and is not modelled.
- The seek bar, the key layout, the colours and the rest of the rendering are not modelled, apart from the two analyser-selection conditions.
- AudioFileAnalyzer.FormatTimeReadsBack: stated for non-negative times only. The model does not cover NaN or infinite times, which print "NaN:NaN".
- Parsing of text fields is not modelled. The metronome handlers take the result of `parseInt` as `Option<int>`, with `None` for NaN. The duration handlers take the result of `parseFloat` as a `real`.
- The import's check that the parsed file is an array, its error path (`console.error`, `alert`) and the success alert are not modelled. `ImportSequences` receives a list that was already parsed.
- Piano.PianoState.SelectSequence: requires that the id is listed, because the only caller is a click on a listed sequence.

## Findings

| source | as written | input that shows it | evidently intended | confidence | as-written member | corrected member |
|---|---|---|---|---|---|---|
| src/components/Metronome.jsx:46-52 | `startStop` queues `setCount(0)` and then calls `playClick`, which reads `count` from the current render. The accent of the first click is therefore decided by the count left over from the last stop. | 4 beats; start, one more click, stop (count 2), start again: the first click is the plain sound | every start begins on the accented first beat, as the reset to 0 before the click says | medium, not executed | Metronome.RestartAfterTwoClicks | Metronome.Metronome.StartStopIntended |
| src/components/Piano.jsx:165-172, 32-45 | `createNewSequence` sets the name to "Nueva secuencia". When a sequence was selected, it also clears the selection. This change triggers the selection effect, whose else branch empties the name again. | record a note, save (this selects the new sequence), then press "new sequence": the name field is empty | the name field shows "Nueva secuencia" after every "new sequence" | medium, not executed | Piano.NewSequenceNameAfterSave | Piano.PianoState.CreateNewSequenceAndRenderIntended |
