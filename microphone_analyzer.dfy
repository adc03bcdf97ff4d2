/**
 * The logic of the microphone analyser: its own copy of `findClosestNote` and
 * the gate in its per-frame `updatePitch`. Capture and scheduling are not
 * modelled.
 */
module MicrophoneAnalyzer {
  import opened Wrappers
  import opened JsText
  import opened PianoNotes
  import PitchDetector
  import AudioFileAnalyzer

  /**
   * The integer part of this component's `findClosestNote`, written out as it
   * has it: remainder and floor of the rounded note number, the identifier,
   * then `find` in the catalogue.
   */
  function NoteForNumber(n: int): (r: Option<PianoNote>)
    ensures r.Some? <==> 48 <= n <= 83
    ensures r.Some? ==> r.value == PianoNotesTable[n - 48] && r.value.note == AudioFileAnalyzer.NoteName(n)
  {
    var noteIndex := JsRemainder(n, 12);
    var octave := n / 12 - 1;
    var noteName := (if noteIndex >= 0 then NoteStrings[noteIndex] else "undefined") + IntToString(octave);
    assert noteName == AudioFileAnalyzer.NoteName(n);
    AudioFileAnalyzer.NoteLookup(n);
    FindByNote(PianoNotesTable, noteName)
  }

  /**
   * `findClosestNote`: the note of the rounded note number
   * 12 * log2(frequency / 440) + 69. For every frequency it gives what the
   * audio file analyser's copy gives.
   */
  function FindClosestNote(frequency: real, log2: real -> real): (r: Option<PianoNote>)
    ensures r == AudioFileAnalyzer.FindClosestNote(frequency, log2)
  {
    var noteNum := 12.0 * log2(frequency / 440.0) + 69.0;
    var n := JsRound(noteNum);
    assert n == JsRound(AudioFileAnalyzer.NoteNumber(frequency, log2));
    assert NoteForNumber(n) == AudioFileAnalyzer.NoteForNumber(n);
    NoteForNumber(n)
  }

  /** The gate in `updatePitch`: a note is reported only for a pitch above 0. */
  function ReportedNote(pitch: PitchDetector.JsNumber, log2: real -> real): (r: Option<Option<PianoNote>>)
    ensures r.Some? <==> pitch.Num? && pitch.value > 0.0
    ensures r.Some? ==> r.value == FindClosestNote(pitch.value, log2)
  {
    if pitch.Num? && pitch.value > 0.0 then Some(FindClosestNote(pitch.value, log2)) else None
  }
}
