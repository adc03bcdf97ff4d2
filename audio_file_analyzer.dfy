/**
 * The logic of the audio-file analyser: the frequency-to-note mapping
 * `findClosestNote`, the `m:ss` formatter `formatTime`, and the gate in the
 * per-frame `updatePitch` that reports a note only for a positive pitch.
 * `Math.log2` is not modelled; it is passed in as the function `log2`.
 */
module AudioFileAnalyzer {
  import opened Wrappers
  import opened JsText
  import opened PianoNotes
  import PitchDetector

  /** MIDI numbering: A4, the 440 Hz reference pitch, is note 69. */
  const A4Frequency: real := 440.0
  const A4NoteNumber: int := 69

  /** Note numbers 48 (C3) to 83 (B5) are the ones the catalogue covers. */
  const LowestNoteNumber: int := 48
  const HighestNoteNumber: int := 83

  /** The continuous note number 12 * log2(frequency / 440) + 69. */
  function NoteNumber(frequency: real, log2: real -> real): real {
    12.0 * log2(frequency / A4Frequency) + A4NoteNumber as real
  }

  /**
   * The identifier built for a rounded note number n: the pitch-class name at
   * index n % 12 (JavaScript's remainder, so a negative n gives an index <= 0,
   * and any index below 0 reads `undefined`) followed by the octave
   * floor(n / 12) - 1 written in decimal.
   */
  function NoteName(n: int): (r: string)
    ensures n >= 0 || n % 12 == 0 ==> r == NoteStrings[n % 12] + IntToString(n / 12 - 1)
    ensures n < 0 && n % 12 != 0 ==> r == "undefined" + IntToString(n / 12 - 1)
  {
    var noteIndex := JsRemainder(n, 12);
    var octave := n / 12 - 1;
    var pitchClass := if noteIndex >= 0 then NoteStrings[noteIndex] else "undefined";
    pitchClass + IntToString(octave)
  }

  /** For a note number in the catalogue's range, the built identifier is that of entry n - 48. */
  lemma NoteNameInRange(n: int)
    requires LowestNoteNumber <= n <= HighestNoteNumber
    ensures NoteName(n) == PianoNotesTable[n - LowestNoteNumber].note
  {
    var k := n - LowestNoteNumber;
    EntryLayout(k);
    assert n % 12 == k % 12 && n / 12 - 1 == 3 + k / 12;
    assert IntToString(3 + k / 12) == [OctaveDigit(k)];
  }

  /** An identifier from the catalogue determines the note number it was built from. */
  lemma NoteNameDeterminesNumber(n: int, i: int)
    requires 0 <= i < 36
    requires PianoNotesTable[i].note == NoteName(n)
    ensures n == LowestNoteNumber + i
  {
    EntryLayout(i);
    var noteIndex := JsRemainder(n, 12);
    var octave := n / 12 - 1;
    var pitchClass := if noteIndex >= 0 then NoteStrings[noteIndex] else "undefined";
    if noteIndex >= 0 {
      NoteStringsAreNames(noteIndex);
    }
    NoteStringsAreNames(i % 12);
    SplitAtNumber(pitchClass, IntToString(octave), NoteStrings[i % 12], [OctaveDigit(i)]);
    IntToStringSingleChar(octave, OctaveDigit(i));
    assert octave == 3 + i / 12;
    NoteStringsShape();
    assert n % 12 == i % 12;
  }

  /**
   * The lookup behind `findClosestNote`: the built identifier is in the
   * catalogue exactly for note numbers 48..83, and then it names entry n - 48.
   */
  lemma NoteLookup(n: int)
    ensures FindByNote(PianoNotesTable, NoteName(n)).Some? <==> LowestNoteNumber <= n <= HighestNoteNumber
    ensures LowestNoteNumber <= n <= HighestNoteNumber ==>
      FindByNote(PianoNotesTable, NoteName(n)) == Some(PianoNotesTable[n - LowestNoteNumber])
  {
    if LowestNoteNumber <= n <= HighestNoteNumber {
      NoteNameInRange(n);
      FindOwnNote(n - LowestNoteNumber);
    }
    var r := FindByNote(PianoNotesTable, NoteName(n));
    if r.Some? {
      var i :| 0 <= i < |PianoNotesTable| && PianoNotesTable[i] == r.value
        && forall j :: 0 <= j < i ==> PianoNotesTable[j].note != NoteName(n);
      NoteNameDeterminesNumber(n, i);
    }
  }

  /** The note `findClosestNote` reports for the rounded note number n. */
  function NoteForNumber(n: int): (r: Option<PianoNote>)
    ensures r.Some? <==> LowestNoteNumber <= n <= HighestNoteNumber
    ensures r.Some? ==> r.value == PianoNotesTable[n - LowestNoteNumber] && r.value.note == NoteName(n)
  {
    NoteLookup(n);
    FindByNote(PianoNotesTable, NoteName(n))
  }

  /**
   * `findClosestNote`: rounds the note number of `frequency` (Math.round) and
   * returns the catalogue entry of that note, or None (null) when it lies
   * outside C3..B5; the entry found is the one whose identifier was built.
   */
  function FindClosestNote(frequency: real, log2: real -> real): (r: Option<PianoNote>)
    ensures var n := JsRound(NoteNumber(frequency, log2));
      (r.Some? <==> LowestNoteNumber <= n <= HighestNoteNumber)
      && (r.Some? ==> r.value == PianoNotesTable[n - LowestNoteNumber] && r.value.note == NoteName(n))
  {
    NoteForNumber(JsRound(NoteNumber(frequency, log2)))
  }

  /** 440 Hz has note number 69 (given log2(1) = 0) and maps to A4, displayed "La". */
  lemma ConcertPitchIsA4(log2: real -> real)
    requires log2(1.0) == 0.0
    ensures FindClosestNote(A4Frequency, log2).Some?
    ensures FindClosestNote(A4Frequency, log2).value.note == "A4"
    ensures FindClosestNote(A4Frequency, log2).value.name == "La"
  {
    assert NoteNumber(A4Frequency, log2) == 69.0;
    assert JsRound(69.0) == 69;
    assert PianoNotesTable[21].note == "A4" && PianoNotesTable[21].name == "La";
  }

  /**
   * The mapping is monotonic: for an increasing log2, a higher frequency never
   * maps to an earlier catalogue entry.
   */
  lemma FindClosestNoteMonotonic(f1: real, f2: real, log2: real -> real, i1: int, i2: int)
    requires forall x, y :: x <= y ==> log2(x) <= log2(y)
    requires f1 <= f2
    requires 0 <= i1 < 36 && 0 <= i2 < 36
    requires FindClosestNote(f1, log2) == Some(PianoNotesTable[i1])
    requires FindClosestNote(f2, log2) == Some(PianoNotesTable[i2])
    ensures i1 <= i2
  {
    var n1, n2 := JsRound(NoteNumber(f1, log2)), JsRound(NoteNumber(f2, log2));
    assert f1 / A4Frequency <= f2 / A4Frequency;
    assert NoteNumber(f1, log2) <= NoteNumber(f2, log2);
    assert n1 <= n2;
    NotesDistinct(i1, n1 - LowestNoteNumber);
    NotesDistinct(i2, n2 - LowestNoteNumber);
  }

  /**
   * The gate in `updatePitch`: `onNoteDetected` is called (Some) only when the
   * detected pitch is a number above 0, and then with the mapped note, which
   * may be None (null).
   */
  function ReportedNote(pitch: PitchDetector.JsNumber, log2: real -> real): (r: Option<Option<PianoNote>>)
    ensures r.Some? <==> pitch.Num? && pitch.value > 0.0
    ensures r.Some? ==> r.value == FindClosestNote(pitch.value, log2)
  {
    if pitch.Num? && pitch.value > 0.0 then Some(FindClosestNote(pitch.value, log2)) else None
  }

  /** Neither the "no pitch" sentinel -1 nor NaN reaches `onNoteDetected`. */
  lemma NoReportWithoutPitch(log2: real -> real)
    ensures ReportedNote(PitchDetector.Num(-1.0), log2).None?
    ensures ReportedNote(PitchDetector.NaN, log2).None?
  {
  }

  /** `formatTime`: floor(time / 60), a colon, then floor(time % 60), with a 0 before values below 10. */
  function FormatTime(time: real): (r: string)
    ensures |r| >= 4
    ensures time >= 0.0 ==> r[|r| - 3] == ':' && AllDigits(r[|r| - 2..])
    ensures time < 0.0 ==> r[0] == '-'
  {
    var minutes := JsFloor(time / 60.0);
    var seconds := JsFloor(JsRealRemainder60(time));
    var sec := if seconds < 10 then "0" + IntToString(seconds) else IntToString(seconds);
    var r := IntToString(minutes) + ":" + sec;
    if time >= 0.0 then
      MinutesAndSeconds(time);
      SecondsText(seconds);
      assert r[|r| - 2..] == sec;
      r
    else
      r
  }

  /**
   * For a non-negative time, the text is minutes, ':', and exactly two second
   * digits below 60, and reading it back gives the whole number of seconds.
   */
  lemma FormatTimeReadsBack(time: real)
    requires time >= 0.0
    ensures var s := FormatTime(time);
      |s| >= 4 && s[|s| - 3] == ':'
      && AllDigits(s[..|s| - 3]) && AllDigits(s[|s| - 2..])
      && DigitsValue(s[|s| - 2..]) < 60
      && 60 * DigitsValue(s[..|s| - 3]) + DigitsValue(s[|s| - 2..]) == time.Floor
  {
    var minutes := JsFloor(time / 60.0);
    var seconds := JsFloor(JsRealRemainder60(time));
    MinutesAndSeconds(time);
    var m := IntToString(minutes);
    var sec := if seconds < 10 then "0" + IntToString(seconds) else IntToString(seconds);
    SecondsText(seconds);
    var s := m + ":" + sec;
    assert s == FormatTime(time);
    assert s[..|s| - 3] == m && s[|s| - 2..] == sec && s[|s| - 3] == ':';
  }

  /** The two numbers `formatTime` prints split the whole seconds into minutes and seconds. */
  lemma MinutesAndSeconds(time: real)
    requires time >= 0.0
    ensures var minutes := JsFloor(time / 60.0);
      var seconds := JsFloor(JsRealRemainder60(time));
      minutes >= 0 && 0 <= seconds < 60 && 60 * minutes + seconds == time.Floor
  {
    var minutes := JsFloor(time / 60.0);
    var seconds := JsFloor(JsRealRemainder60(time));
    assert seconds == time.Floor % 60;
    assert minutes == time.Floor / 60 by {
      assert 60.0 * minutes as real <= time < 60.0 * minutes as real + 60.0;
      assert 60 * minutes <= time.Floor < 60 * minutes + 60;
    }
  }

  lemma SecondsText(seconds: int)
    requires 0 <= seconds < 60
    ensures var sec := if seconds < 10 then "0" + IntToString(seconds) else IntToString(seconds);
      |sec| == 2 && AllDigits(sec) && DigitsValue(sec) == seconds
  {
    if seconds < 10 {
      var sec := "0" + IntToString(seconds);
      assert sec[..1] == "0";
    } else {
      var t := NatToString(seconds);
      assert t == NatToString(seconds / 10) + [DigitChar(seconds % 10)];
    }
  }
}
