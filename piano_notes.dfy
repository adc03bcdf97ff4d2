/**
 * The static catalogue of the 36 piano keys C3..B5 (`pianoNotes`) and the two
 * 12-entry pitch-class name tables (`noteStrings`, `spanishNoteStrings`). The
 * audio imports are represented by the asset file each entry refers to.
 */
module PianoNotes {
  import opened Wrappers
  import opened JsText

  datatype KeyType = White | Black

  /** One catalogue entry: identifier ("C#4"), display name ("Do#"), audio asset and key colour. */
  datatype PianoNote = PianoNote(note: string, name: string, audio: string, keyType: KeyType)

  const NoteStrings: seq<string> := ["C", "C#", "D", "D#", "E", "F", "F#", "G", "G#", "A", "A#", "B"]

  const SpanishNoteStrings: seq<string> :=
    ["Do", "Do#", "Re", "Re#", "Mi", "Fa", "Fa#", "Sol", "Sol#", "La", "La#", "Si"]

  /** The subscript five that marks the names of the highest octave. */
  const OctaveFiveMark: string := "₅"

  const PianoNotesTable: seq<PianoNote> := [
    // Octave 3
    PianoNote("C3", "Do", "C3.mp3", White),
    PianoNote("C#3", "Do#", "Db3.mp3", Black),
    PianoNote("D3", "Re", "D3.mp3", White),
    PianoNote("D#3", "Re#", "Eb3.mp3", Black),
    PianoNote("E3", "Mi", "E3.mp3", White),
    PianoNote("F3", "Fa", "F3.mp3", White),
    PianoNote("F#3", "Fa#", "Gb3.mp3", Black),
    PianoNote("G3", "Sol", "G3.mp3", White),
    PianoNote("G#3", "Sol#", "Ab3.mp3", Black),
    PianoNote("A3", "La", "A3.mp3", White),
    PianoNote("A#3", "La#", "Bb3.mp3", Black),
    PianoNote("B3", "Si", "B3.mp3", White),
    // Octave 4
    PianoNote("C4", "Do", "C4.mp3", White),
    PianoNote("C#4", "Do#", "Db4.mp3", Black),
    PianoNote("D4", "Re", "D4.mp3", White),
    PianoNote("D#4", "Re#", "Eb4.mp3", Black),
    PianoNote("E4", "Mi", "E4.mp3", White),
    PianoNote("F4", "Fa", "F4.mp3", White),
    PianoNote("F#4", "Fa#", "Gb4.mp3", Black),
    PianoNote("G4", "Sol", "G4.mp3", White),
    PianoNote("G#4", "Sol#", "Ab4.mp3", Black),
    PianoNote("A4", "La", "A4.mp3", White),
    PianoNote("A#4", "La#", "Bb4.mp3", Black),
    PianoNote("B4", "Si", "B4.mp3", White),
    // Octave 5
    PianoNote("C5", "Do₅", "C5.mp3", White),
    PianoNote("C#5", "Do#₅", "Db5.mp3", Black),
    PianoNote("D5", "Re₅", "D5.mp3", White),
    PianoNote("D#5", "Re#₅", "Eb5.mp3", Black),
    PianoNote("E5", "Mi₅", "E5.mp3", White),
    PianoNote("F5", "Fa₅", "F5.mp3", White),
    PianoNote("F#5", "Fa#₅", "Gb5.mp3", Black),
    PianoNote("G5", "Sol₅", "G5.mp3", White),
    PianoNote("G#5", "Sol#₅", "Ab5.mp3", Black),
    PianoNote("A5", "La₅", "A5.mp3", White),
    PianoNote("A#5", "La#₅", "Bb5.mp3", Black),
    PianoNote("B5", "Si₅", "B5.mp3", White)
  ]

  /** The pitch-class index of an identifier prefix: the inverse of indexing NoteStrings. */
  function PitchClassIndex(s: string): int {
    if s == "C" then 0 else if s == "C#" then 1 else if s == "D" then 2
    else if s == "D#" then 3 else if s == "E" then 4 else if s == "F" then 5
    else if s == "F#" then 6 else if s == "G" then 7 else if s == "G#" then 8
    else if s == "A" then 9 else if s == "A#" then 10 else if s == "B" then 11
    else -1
  }

  /** Both name tables have 12 entries, and PitchClassIndex reads NoteStrings back, so its entries are distinct. */
  lemma NoteStringsShape()
    ensures |NoteStrings| == 12 && |SpanishNoteStrings| == 12
    ensures forall i :: 0 <= i < 12 ==> PitchClassIndex(NoteStrings[i]) == i
    ensures forall i, j :: 0 <= i < 12 && 0 <= j < 12 && NoteStrings[i] == NoteStrings[j] ==> i == j
  {
    forall i | 0 <= i < 12
      ensures PitchClassIndex(NoteStrings[i]) == i
    {
      PitchClassIndexAt(i);
    }
  }

  /**
   * Looking up the name at position i gives back i.
   *
   * Each empty branch fixes the index to a literal, so that the verifier
   * evaluates the table entries for that one case; over a symbolic index it
   * does not unfold the table.
   */
  lemma PitchClassIndexAt(i: int)
    requires 0 <= i < 12
    ensures PitchClassIndex(NoteStrings[i]) == i
  {
    if i == 0 {
    } else if i == 1 {
    } else if i == 2 {
    } else if i == 3 {
    } else if i == 4 {
    } else if i == 5 {
    } else if i == 6 {
    } else if i == 7 {
    } else if i == 8 {
    } else if i == 9 {
    } else if i == 10 {
    } else {
    }
  }

  /** A pitch-class name is made of letters and '#', never a digit or a minus sign. */
  predicate IsNameChar(c: char) {
    !IsDigit(c) && c != '-'
  }

  predicate AllNameChars(s: string) {
    forall i :: 0 <= i < |s| ==> IsNameChar(s[i])
  }

  lemma NoteStringsAreNames(i: int)
    requires 0 <= i < 12
    ensures AllNameChars(NoteStrings[i]) && 1 <= |NoteStrings[i]| <= 2
    ensures ('#' in NoteStrings[i]) <==> i in {1, 3, 6, 8, 10}
  {
    PitchClassIndexAt(i);
  }

  /** The octave digit character of entry k. */
  function OctaveDigit(k: int): char
    requires 0 <= k < 36
  {
    DigitChar(3 + k / 12)
  }

  /**
   * The layout of the catalogue: entry k is pitch class k mod 12 of octave
   * 3 + k div 12. Its identifier is that pitch-class name followed by the octave
   * digit; its display name is the Spanish name, marked with a subscript five in
   * octave 5; its key is black exactly for the sharps.
   */
  lemma EntryLayout(k: int)
    requires 0 <= k < 36
    ensures PianoNotesTable[k].note == NoteStrings[k % 12] + [OctaveDigit(k)]
    ensures PianoNotesTable[k].name
      == SpanishNoteStrings[k % 12] + (if k / 12 == 2 then OctaveFiveMark else "")
    ensures PianoNotesTable[k].keyType == (if '#' in NoteStrings[k % 12] then Black else White)
  {
    if k < 12 {
      LayoutOctave3(k);
    } else if k < 24 {
      LayoutOctave4(k);
    } else {
      LayoutOctave5(k);
    }
  }

  /**
   * `EntryLayout` for the entries of octave 3.
   *
   * Each empty branch fixes the index to a literal, so that the verifier
   * evaluates the table entries for that one case; over a symbolic index it
   * does not unfold the table.
   */
  lemma LayoutOctave3(k: int)
    requires 0 <= k < 12
    ensures PianoNotesTable[k].note == NoteStrings[k % 12] + [OctaveDigit(k)]
    ensures PianoNotesTable[k].name
      == SpanishNoteStrings[k % 12] + (if k / 12 == 2 then OctaveFiveMark else "")
    ensures PianoNotesTable[k].keyType == (if '#' in NoteStrings[k % 12] then Black else White)
  {
    NoteStringsAreNames(k % 12);
    if k == 0 {
    } else if k == 1 {
    } else if k == 2 {
    } else if k == 3 {
    } else if k == 4 {
    } else if k == 5 {
    } else if k == 6 {
    } else if k == 7 {
    } else if k == 8 {
    } else if k == 9 {
    } else if k == 10 {
    } else if k == 11 {
    }
  }

  /**
   * `EntryLayout` for the entries of octave 4.
   *
   * Each empty branch fixes the index to a literal, so that the verifier
   * evaluates the table entries for that one case; over a symbolic index it
   * does not unfold the table.
   */
  lemma LayoutOctave4(k: int)
    requires 12 <= k < 24
    ensures PianoNotesTable[k].note == NoteStrings[k % 12] + [OctaveDigit(k)]
    ensures PianoNotesTable[k].name
      == SpanishNoteStrings[k % 12] + (if k / 12 == 2 then OctaveFiveMark else "")
    ensures PianoNotesTable[k].keyType == (if '#' in NoteStrings[k % 12] then Black else White)
  {
    NoteStringsAreNames(k % 12);
    if k == 12 {
    } else if k == 13 {
    } else if k == 14 {
    } else if k == 15 {
    } else if k == 16 {
    } else if k == 17 {
    } else if k == 18 {
    } else if k == 19 {
    } else if k == 20 {
    } else if k == 21 {
    } else if k == 22 {
    } else if k == 23 {
    }
  }

  /**
   * `EntryLayout` for the entries of octave 5.
   *
   * Each empty branch fixes the index to a literal, so that the verifier
   * evaluates the table entries for that one case; over a symbolic index it
   * does not unfold the table.
   */
  lemma LayoutOctave5(k: int)
    requires 24 <= k < 36
    ensures PianoNotesTable[k].note == NoteStrings[k % 12] + [OctaveDigit(k)]
    ensures PianoNotesTable[k].name
      == SpanishNoteStrings[k % 12] + (if k / 12 == 2 then OctaveFiveMark else "")
    ensures PianoNotesTable[k].keyType == (if '#' in NoteStrings[k % 12] then Black else White)
  {
    NoteStringsAreNames(k % 12);
    if k == 24 {
    } else if k == 25 {
    } else if k == 26 {
    } else if k == 27 {
    } else if k == 28 {
    } else if k == 29 {
    } else if k == 30 {
    } else if k == 31 {
    } else if k == 32 {
    } else if k == 33 {
    } else if k == 34 {
    } else if k == 35 {
    }
  }

  /** The catalogue has 36 entries, C3 first and B5 last. */
  lemma TableSize()
    ensures |PianoNotesTable| == 36
    ensures PianoNotesTable[0].note == "C3" && PianoNotesTable[35].note == "B5"
  {
  }

  /** The length of the leading run of name characters in w. */
  function NamePrefixLength(w: string): (n: nat)
    ensures n <= |w|
  {
    if w == [] || !IsNameChar(w[0]) then 0 else 1 + NamePrefixLength(w[1..])
  }

  lemma {:induction false} NamePrefixLengthOf(p: string, s: string)
    requires AllNameChars(p)
    requires |s| >= 1 && !IsNameChar(s[0])
    ensures NamePrefixLength(p + s) == |p|
  {
    if p == [] {
      assert p + s == s;
    } else {
      assert (p + s)[1..] == p[1..] + s;
      NamePrefixLengthOf(p[1..], s);
    }
  }

  /** If p1 + s1 == p2 + s2 where the p's hold no digit or minus sign and the s's start with one, the parts agree. */
  lemma SplitAtNumber(p1: string, s1: string, p2: string, s2: string)
    requires AllNameChars(p1) && AllNameChars(p2)
    requires |s1| >= 1 && |s2| >= 1 && !IsNameChar(s1[0]) && !IsNameChar(s2[0])
    requires p1 + s1 == p2 + s2
    ensures p1 == p2 && s1 == s2
  {
    NamePrefixLengthOf(p1, s1);
    NamePrefixLengthOf(p2, s2);
    assert p1 == (p1 + s1)[..|p1|] && p2 == (p2 + s2)[..|p2|];
    assert s1 == (p1 + s1)[|p1|..] && s2 == (p2 + s2)[|p2|..];
  }

  /** The identifiers are pairwise distinct, so a lookup by exact identifier is unambiguous. */
  lemma NotesDistinct(i: int, j: int)
    requires 0 <= i < 36 && 0 <= j < 36
    requires PianoNotesTable[i].note == PianoNotesTable[j].note
    ensures i == j
  {
    EntryLayout(i);
    EntryLayout(j);
    NoteStringsAreNames(i % 12);
    NoteStringsAreNames(j % 12);
    SplitAtNumber(NoteStrings[i % 12], [OctaveDigit(i)], NoteStrings[j % 12], [OctaveDigit(j)]);
    NoteStringsShape();
    assert DigitValue(OctaveDigit(i)) == 3 + i / 12;
  }

  /** An entry's key is black exactly when its identifier contains '#'. */
  lemma BlackKeysAreSharps(k: int)
    requires 0 <= k < 36
    ensures PianoNotesTable[k].keyType == Black <==> '#' in PianoNotesTable[k].note
  {
    EntryLayout(k);
    var p := NoteStrings[k % 12];
    var note := p + [OctaveDigit(k)];
    assert '#' in note <==> '#' in p by {
      if '#' in note {
        var i :| 0 <= i < |note| && note[i] == '#';
        assert i < |p|;
        assert p[i] == '#';
      }
      if '#' in p {
        var i :| 0 <= i < |p| && p[i] == '#';
        assert note[i] == '#';
      }
    }
  }

  /** `Array.prototype.find` by identifier: the first entry whose `note` equals `name`. */
  function FindByNote(table: seq<PianoNote>, name: string): (r: Option<PianoNote>)
    ensures r.None? <==> forall i :: 0 <= i < |table| ==> table[i].note != name
    ensures r.Some? ==> r.value.note == name && exists i :: (0 <= i < |table| && table[i] == r.value
      && forall j :: 0 <= j < i ==> table[j].note != name)
  {
    if table == [] then None
    else if table[0].note == name then Some(table[0])
    else
      var r := FindByNote(table[1..], name);
      assert forall i :: 1 <= i < |table| ==> table[i] == table[1..][i - 1];
      r
  }

  /** Looking up an entry's own identifier finds that entry. */
  lemma FindOwnNote(k: int)
    requires 0 <= k < 36
    ensures FindByNote(PianoNotesTable, PianoNotesTable[k].note) == Some(PianoNotesTable[k])
  {
    var r := FindByNote(PianoNotesTable, PianoNotesTable[k].note);
    var i :| 0 <= i < |PianoNotesTable| && PianoNotesTable[i] == r.value
      && r.value.note == PianoNotesTable[k].note;
    NotesDistinct(i, k);
  }
}
