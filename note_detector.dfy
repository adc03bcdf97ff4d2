/**
 * The top-level `NoteDetector` component (src/MusicalNoteDetector.jsx): the
 * switch between listening to the microphone and analysing an uploaded audio
 * file, and the note the active analyser last reported.
 *
 * The state is the class `NoteDetector`; each handler is a method. The
 * invariant the handlers keep is that the microphone is never on while a file
 * is loaded, and the render conditions show at most one analyser.
 */
module MusicalNoteDetector {
  import opened Wrappers
  import opened PianoNotes

  /** An uploaded audio file; only its presence matters to the switch. */
  datatype AudioFile = AudioFile(name: string)

  class NoteDetector {
    var isMicActive: bool
    var audioFile: Option<AudioFile>
    var currentNote: Option<PianoNote>

    /** The microphone and a loaded file are never both active. */
    ghost predicate Valid()
      reads this
    {
      !(isMicActive && audioFile.Some?)
    }

    constructor ()
      ensures Valid()
      ensures !isMicActive && audioFile == None && currentNote == None
    {
      isMicActive := false;
      audioFile := None;
      currentNote := None;
    }

    /** `handleFileUpload`: a chosen file is loaded and switches the microphone off; no file changes nothing. */
    method HandleFileUpload(file: Option<AudioFile>)
      requires Valid()
      modifies this`audioFile, this`isMicActive
      ensures Valid()
      ensures file.Some? ==> audioFile == file && !isMicActive
      ensures file.None? ==> audioFile == old(audioFile) && isMicActive == old(isMicActive)
    {
      if file.Some? {
        audioFile := file;
        isMicActive := false;
      }
    }

    /** `toggleMicrophone`: flips the microphone, but only while no file is loaded. */
    method ToggleMicrophone()
      requires Valid()
      modifies this`isMicActive
      ensures Valid()
      ensures old(audioFile).None? ==> isMicActive == !old(isMicActive)
      ensures old(audioFile).Some? ==> isMicActive == old(isMicActive)
    {
      if audioFile.None? {
        isMicActive := !isMicActive;
      }
    }

    /** `clearAudioFile`: unload the file, forget the note, microphone off. */
    method ClearAudioFile()
      modifies this`audioFile, this`currentNote, this`isMicActive
      ensures Valid()
      ensures audioFile == None && currentNote == None && !isMicActive
    {
      audioFile := None;
      currentNote := None;
      isMicActive := false;
    }

    /** `onNoteDetected`, the callback both analysers are given. */
    method SetCurrentNote(note: Option<PianoNote>)
      modifies this`currentNote
      ensures currentNote == note
    {
      currentNote := note;
    }

    /** `isMicActive && !audioFile`: the microphone analyser is rendered. */
    function MicrophoneAnalyzerShown(): (r: bool)
      reads this
      ensures r <==> isMicActive && audioFile.None?
    {
      isMicActive && !audioFile.Some?
    }

    /** `audioFile &&`: the file analyser is rendered. */
    function FileAnalyzerShown(): (r: bool)
      reads this
      ensures r <==> audioFile.Some?
    {
      audioFile.Some?
    }

    /** `currentNote?.name`: what the piano is told was detected. */
    function DetectedName(): (r: Option<string>)
      reads this
      ensures r.None? <==> currentNote.None?
      ensures r.Some? ==> r.value == currentNote.value.name
    {
      if currentNote.Some? then Some(currentNote.value.name) else None
    }

    /**
     * At most one analyser is rendered, and in a valid state the microphone
     * analyser is rendered exactly when the microphone is on.
     */
    lemma AtMostOneAnalyzer()
      ensures !(MicrophoneAnalyzerShown() && FileAnalyzerShown())
      ensures Valid() ==> (MicrophoneAnalyzerShown() <==> isMicActive)
    {
    }
  }
}
