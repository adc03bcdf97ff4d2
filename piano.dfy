/**
 * The sequence editor of the `Piano` component (src/components/Piano.jsx):
 * recording pressed keys and pauses into the current `sequence`, editing it,
 * and keeping the list of saved `sequences` (save, delete, select, import).
 *
 * The list transforms the handlers hand to React's functional updates are pure
 * functions here; the component's state is the class `PianoState`, one field
 * per state variable, and each handler is a method that leaves the state as it
 * is once React has applied the updates the handler queued. The effect that
 * reloads the selected sequence is a separate method, because React runs it
 * only after the render that follows the handler.
 */
module Piano {
  import opened Wrappers
  import opened JsText

  /** One recorded item: a played key (its identifier, name and sound file) or a pause. */
  datatype Item =
    | Note(note: string, name: string, audio: string, duration: real)
    | Pause(duration: real)

  /** A saved sequence; ids come from the clock or from an imported file, so they need not be unique. */
  datatype SavedSequence = SavedSequence(id: int, name: string, notes: seq<Item>)

  const InitialDuration: real := 0.5
  const NewSequenceName: string := "Nueva secuencia"
  const UnnamedSequence: string := "Secuencia sin nombre"

  // ---------------------------------------------------------------------------
  // The recorded items

  /** The two items agree on everything but their duration. */
  predicate SameExceptDuration(a: Item, b: Item) {
    a.Note? == b.Note? && (a.Note? ==> a.note == b.note && a.name == b.name && a.audio == b.audio)
  }

  /** `updateNoteDuration`: `map` that replaces the duration of the item at `index`. */
  function UpdateDuration(items: seq<Item>, index: int, d: real): (r: seq<Item>)
    ensures |r| == |items|
    ensures forall i :: 0 <= i < |r| && i != index ==> r[i] == items[i]
    ensures 0 <= index < |items| ==> r[index].duration == d && SameExceptDuration(r[index], items[index])
    ensures !(0 <= index < |items|) ==> r == items
  {
    seq(|items|, i requires 0 <= i < |items| => if i == index then items[i].(duration := d) else items[i])
  }

  /** Setting the same item's duration twice leaves only the second value. */
  lemma UpdateDurationLastWins(items: seq<Item>, index: int, d1: real, d2: real)
    ensures UpdateDuration(UpdateDuration(items, index, d1), index, d2) == UpdateDuration(items, index, d2)
  {
    var once := UpdateDuration(items, index, d1);
    var twice := UpdateDuration(once, index, d2);
    var direct := UpdateDuration(items, index, d2);
    forall i | 0 <= i < |items| ensures twice[i] == direct[i] {
      if i == index {
        assert SameExceptDuration(twice[i], once[i]) && SameExceptDuration(once[i], items[i]);
        assert SameExceptDuration(direct[i], items[i]);
      }
    }
  }

  /**
   * `filter((_, i) => i !== index)` walked one position at a time: `k` is the
   * position that `items[0]` had in the list being filtered.
   */
  function KeepOtherPositions(items: seq<Item>, index: int, k: int): (r: seq<Item>)
    decreases |items|
    ensures 0 <= index - k < |items| ==> r == items[..index - k] + items[index - k + 1..]
    ensures !(0 <= index - k < |items|) ==> r == items
  {
    if items == [] then []
    else
      var rest := KeepOtherPositions(items[1..], index, k + 1);
      if k == index then
        assert rest == items[1..];
        rest
      else
        assert 0 < index - k < |items| ==> items[1..][..index - k - 1] == items[1..index - k];
        [items[0]] + rest
  }

  /** `removeNoteFromSequence`: drop the item at `index`; any other index changes nothing. */
  function RemoveAt(items: seq<Item>, index: int): (r: seq<Item>)
    ensures 0 <= index < |items| ==> r == items[..index] + items[index + 1..]
    ensures !(0 <= index < |items|) ==> r == items
  {
    KeepOtherPositions(items, index, 0)
  }

  /** Removing an item keeps every other item, in order, and the list gets one shorter. */
  lemma RemoveAtShifts(items: seq<Item>, index: int, i: int)
    requires 0 <= index < |items| && 0 <= i < |items| - 1
    ensures |RemoveAt(items, index)| == |items| - 1
    ensures RemoveAt(items, index)[i] == if i < index then items[i] else items[i + 1]
  {
  }

  // ---------------------------------------------------------------------------
  // The saved sequences

  function Ids(seqs: seq<SavedSequence>): set<int> {
    set s | s in seqs :: s.id
  }

  predicate UniqueIds(seqs: seq<SavedSequence>) {
    forall i, j :: 0 <= i < j < |seqs| ==> seqs[i].id != seqs[j].id
  }

  /** `sequences.find(seq => seq.id === id)`: the first sequence with that id. */
  function FindById(seqs: seq<SavedSequence>, id: int): (r: Option<SavedSequence>)
    ensures r.None? <==> id !in Ids(seqs)
    ensures r.Some? ==> r.value.id == id && exists i :: 0 <= i < |seqs| && seqs[i] == r.value && (forall j :: 0 <= j < i ==> seqs[j].id != id)
  {
    if seqs == [] then None
    else if seqs[0].id == id then Some(seqs[0])
    else
      var r := FindById(seqs[1..], id);
      assert Ids(seqs) == {seqs[0].id} + Ids(seqs[1..]) by {
        assert forall s :: s in seqs <==> s == seqs[0] || s in seqs[1..];
      }
      if r.Some? then
        var i :| 0 <= i < |seqs[1..]| && seqs[1..][i] == r.value && (forall j :: 0 <= j < i ==> seqs[1..][j].id != id);
        assert seqs[i + 1] == r.value && (forall j :: 0 <= j < i + 1 ==> seqs[j].id != id);
        r
      else r
  }

  /** The update branch of `saveCurrentSequence`: every sequence with that id gets the new name and notes. */
  function UpdateById(seqs: seq<SavedSequence>, id: int, name: string, notes: seq<Item>): (r: seq<SavedSequence>)
    ensures |r| == |seqs|
    ensures forall i :: 0 <= i < |r| ==> r[i].id == seqs[i].id
    ensures forall i :: 0 <= i < |r| && seqs[i].id == id ==> r[i].name == name && r[i].notes == notes
    ensures forall i :: 0 <= i < |r| && seqs[i].id != id ==> r[i] == seqs[i]
  {
    seq(|seqs|, i requires 0 <= i < |seqs| => if seqs[i].id == id then seqs[i].(name := name, notes := notes) else seqs[i])
  }

  /** Updating by id keeps the set of ids, and looking the id up again finds the new contents. */
  lemma UpdateByIdThenFind(seqs: seq<SavedSequence>, id: int, name: string, notes: seq<Item>)
    requires id in Ids(seqs)
    ensures Ids(UpdateById(seqs, id, name, notes)) == Ids(seqs)
    ensures FindById(UpdateById(seqs, id, name, notes), id) == Some(SavedSequence(id, name, notes))
  {
    var r := UpdateById(seqs, id, name, notes);
    forall x | x in Ids(r) ensures x in Ids(seqs) {
      var i :| 0 <= i < |r| && r[i].id == x;
      assert seqs[i] in seqs;
    }
    forall x | x in Ids(seqs) ensures x in Ids(r) {
      var i :| 0 <= i < |seqs| && seqs[i].id == x;
      assert r[i] in r;
    }
    var found := FindById(r, id);
    var i :| 0 <= i < |r| && r[i] == found.value;
    assert seqs[i].id == id;
  }

  /** Appending a sequence adds its id. */
  lemma AppendedId(seqs: seq<SavedSequence>, s: SavedSequence)
    ensures Ids(seqs + [s]) == Ids(seqs) + {s.id}
  {
    var r := seqs + [s];
    assert r[|seqs|] == s;
    forall x | x in Ids(r) ensures x in Ids(seqs) + {s.id} {
      var t :| t in r && t.id == x;
      var i :| 0 <= i < |r| && r[i] == t;
      if i < |seqs| {
        assert seqs[i] == t;
      }
    }
    forall x | x in Ids(seqs) ensures x in Ids(r) {
      var t :| t in seqs && t.id == x;
      assert t in r;
    }
  }

  /** `deleteSequence`'s filter: every sequence whose id differs, in order. */
  function DeleteById(seqs: seq<SavedSequence>, id: int): (r: seq<SavedSequence>)
    ensures forall s :: s in r <==> s in seqs && s.id != id
    ensures id !in Ids(r)
    ensures id !in Ids(seqs) ==> r == seqs
    ensures |r| <= |seqs|
  {
    if seqs == [] then []
    else
      var rest := DeleteById(seqs[1..], id);
      assert forall s :: s in seqs <==> s == seqs[0] || s in seqs[1..];
      assert id !in Ids(seqs) ==> id !in Ids(seqs[1..]);
      if seqs[0].id == id then rest else [seqs[0]] + rest
  }

  /** The filter works element by element: deleting from a concatenation deletes from each part. */
  lemma {:induction false} DeleteByIdAppend(a: seq<SavedSequence>, b: seq<SavedSequence>, id: int)
    ensures DeleteById(a + b, id) == DeleteById(a, id) + DeleteById(b, id)
  {
    if a != [] {
      assert (a + b)[1..] == a[1..] + b;
      DeleteByIdAppend(a[1..], b, id);
    } else {
      assert a + b == b;
    }
  }

  /**
   * On a single sequence the filter keeps it exactly when its id differs; with
   * `DeleteByIdAppend` this fixes the result for every list, order and
   * repetitions included.
   */
  lemma DeleteByIdSingle(s: SavedSequence, id: int)
    ensures DeleteById([s], id) == if s.id == id then [] else [s]
  {
    assert [s][1..] == [];
  }

  /** The tail of a list with unique ids has unique ids, none of them the head's. */
  lemma TailUnique(seqs: seq<SavedSequence>)
    requires UniqueIds(seqs) && |seqs| > 0
    ensures UniqueIds(seqs[1..]) && seqs[0].id !in Ids(seqs[1..])
  {
    var tail := seqs[1..];
    forall i, j | 0 <= i < j < |tail| ensures tail[i].id != tail[j].id {
      assert tail[i] == seqs[i + 1] && tail[j] == seqs[j + 1];
    }
    forall s | s in tail ensures s.id != seqs[0].id {
      var j :| 0 <= j < |tail| && tail[j] == s;
      assert seqs[j + 1] == s;
    }
  }

  /** With unique ids, deleting the sequence at position `k` is removing position `k`. */
  lemma {:induction false} DeleteByIdAt(seqs: seq<SavedSequence>, k: int)
    requires UniqueIds(seqs) && 0 <= k < |seqs|
    ensures DeleteById(seqs, seqs[k].id) == seqs[..k] + seqs[k + 1..]
  {
    var id := seqs[k].id;
    var tail := seqs[1..];
    TailUnique(seqs);
    if k == 0 {
      assert DeleteById(seqs, id) == DeleteById(tail, id);
      assert seqs[..0] + seqs[1..] == tail;
    } else {
      assert tail[k - 1] == seqs[k];
      DeleteByIdAt(tail, k - 1);
      assert seqs[0].id != id;
      calc {
        DeleteById(seqs, id);
        [seqs[0]] + DeleteById(tail, id);
        [seqs[0]] + (tail[..k - 1] + tail[k..]);
        ([seqs[0]] + tail[..k - 1]) + tail[k..];
        { assert [seqs[0]] + tail[..k - 1] == seqs[..k]; }
        seqs[..k] + seqs[k + 1..];
      }
    }
  }

  /** The imported sequences whose id is not in `existing`, in their order, duplicates among themselves kept. */
  function NotIn(imported: seq<SavedSequence>, existing: set<int>): (r: seq<SavedSequence>)
    ensures forall s :: s in r <==> s in imported && s.id !in existing
    ensures |r| <= |imported|
  {
    if imported == [] then []
    else
      var rest := NotIn(imported[1..], existing);
      assert forall s :: s in imported <==> s == imported[0] || s in imported[1..];
      if imported[0].id in existing then rest else [imported[0]] + rest
  }

  /** The filter works element by element: filtering a concatenation filters each part. */
  lemma {:induction false} NotInAppend(a: seq<SavedSequence>, b: seq<SavedSequence>, existing: set<int>)
    ensures NotIn(a + b, existing) == NotIn(a, existing) + NotIn(b, existing)
  {
    if a != [] {
      assert (a + b)[1..] == a[1..] + b;
      NotInAppend(a[1..], b, existing);
    } else {
      assert a + b == b;
    }
  }

  /**
   * On a single sequence the filter keeps it exactly when its id is new; with
   * `NotInAppend` this fixes the result for every list, order and repetitions
   * included.
   */
  lemma NotInSingle(s: SavedSequence, existing: set<int>)
    ensures NotIn([s], existing) == if s.id in existing then [] else [s]
  {
    assert [s][1..] == [];
  }

  /** When no imported id exists yet, every imported sequence is kept, in order and with its repetitions. */
  lemma {:induction false} AllNew(imported: seq<SavedSequence>, existing: set<int>)
    requires forall s :: s in imported ==> s.id !in existing
    ensures NotIn(imported, existing) == imported
  {
    if imported != [] {
      assert imported[0] in imported;
      assert forall s :: s in imported[1..] ==> s in imported;
      AllNew(imported[1..], existing);
      assert [imported[0]] + imported[1..] == imported;
    }
  }

  /** When every imported id already exists, nothing is added. */
  lemma {:induction false} NothingNew(imported: seq<SavedSequence>, existing: set<int>)
    requires forall s :: s in imported ==> s.id in existing
    ensures NotIn(imported, existing) == []
  {
    if imported != [] {
      assert imported[0] in imported;
      NothingNew(imported[1..], existing);
    }
  }

  /** The merge inside `importSequences`: the old list, then the imported sequences with new ids. */
  function MergeImported(prev: seq<SavedSequence>, imported: seq<SavedSequence>): (r: seq<SavedSequence>)
    ensures |prev| <= |r| && r[..|prev|] == prev
    ensures r[|prev|..] == NotIn(imported, Ids(prev))
    ensures forall s :: s in r[|prev|..] <==> s in imported && s.id !in Ids(prev)
    ensures Ids(r) == Ids(prev) + Ids(imported)
  {
    var added := NotIn(imported, Ids(prev));
    var r := prev + added;
    assert r[..|prev|] == prev && r[|prev|..] == added;
    assert forall s :: s in r <==> s in prev || s in added;
    forall x | x in Ids(imported) ensures x in Ids(r) {
      var s :| s in imported && s.id == x;
      if x !in Ids(prev) {
        assert s in added;
      }
    }
    r
  }

  /** Importing the same file twice adds nothing the second time. */
  lemma MergeImportedIdempotent(prev: seq<SavedSequence>, imported: seq<SavedSequence>)
    ensures MergeImported(MergeImported(prev, imported), imported) == MergeImported(prev, imported)
  {
    var once := MergeImported(prev, imported);
    forall s | s in imported ensures s.id in Ids(once) {
      assert s.id in Ids(imported);
    }
    NothingNew(imported, Ids(once));
    assert once + [] == once;
  }

  /**
   * Sequences that repeat an id inside the imported file are all added, in
   * their order: the merge checks only the ids that were already listed.
   */
  lemma MergeKeepsDuplicatesWithinImport(prev: seq<SavedSequence>, imported: seq<SavedSequence>)
    requires forall s :: s in imported ==> s.id !in Ids(prev)
    ensures MergeImported(prev, imported) == prev + imported
  {
    AllNew(imported, Ids(prev));
  }

  /** Keeping some of a list with unique ids keeps the ids unique. */
  lemma {:induction false} NotInKeepsUnique(imported: seq<SavedSequence>, existing: set<int>)
    requires UniqueIds(imported)
    ensures UniqueIds(NotIn(imported, existing))
  {
    if imported != [] {
      var tail := imported[1..];
      assert UniqueIds(tail) by {
        forall i, j | 0 <= i < j < |tail| ensures tail[i].id != tail[j].id {
          assert tail[i] == imported[i + 1] && tail[j] == imported[j + 1];
        }
      }
      NotInKeepsUnique(tail, existing);
      var rest := NotIn(tail, existing);
      if imported[0].id !in existing {
        var r := [imported[0]] + rest;
        forall i, j | 0 <= i < j < |r| ensures r[i].id != r[j].id {
          if i == 0 {
            assert r[j] in tail;
            var m :| 0 <= m < |tail| && tail[m] == r[j];
            assert imported[m + 1] == r[j];
          } else {
            assert r[i] == rest[i - 1] && r[j] == rest[j - 1];
          }
        }
      }
    }
  }

  /** When both lists have unique ids, so has their merge. */
  lemma MergeKeepsUnique(prev: seq<SavedSequence>, imported: seq<SavedSequence>)
    requires UniqueIds(prev) && UniqueIds(imported)
    ensures UniqueIds(MergeImported(prev, imported))
  {
    var added := NotIn(imported, Ids(prev));
    NotInKeepsUnique(imported, Ids(prev));
    var r := MergeImported(prev, imported);
    assert r == prev + added;
    forall i, j | 0 <= i < j < |r| ensures r[i].id != r[j].id {
      if j >= |prev| {
        if i < |prev| {
          assert r[j] == added[j - |prev|] && r[j] in added;
          assert r[i] == prev[i] && prev[i] in prev;
        } else {
          assert r[i] == added[i - |prev|] && r[j] == added[j - |prev|];
        }
      }
    }
  }

  /** `sequenceName.trim() || "Secuencia sin nombre"`: the name a save stores. */
  function SavedName(sequenceName: string): (r: string)
    ensures r != []
    ensures AllWhitespace(sequenceName) ==> r == UnnamedSequence
    ensures !AllWhitespace(sequenceName) ==> (exists i :: IsTrimmedAt(sequenceName, r, i)) && !IsJsWhitespace(r[0]) && !IsJsWhitespace(r[|r| - 1])
  {
    var t := Trim(sequenceName);
    if t == [] then UnnamedSequence else t
  }

  /**
   * `isNoteMatching`: the note the detector reports and the last key played
   * are both set and equal; the empty string counts as unset, as in JavaScript.
   */
  function NotesMatch(detectedNote: Option<string>, lastPlayedNote: Option<string>): (r: bool)
    ensures r <==> detectedNote.Some? && lastPlayedNote.Some? && detectedNote.value != [] && detectedNote == lastPlayedNote
  {
    if detectedNote.None? || detectedNote.value == [] || lastPlayedNote.None? || lastPlayedNote.value == [] then false
    else detectedNote.value == lastPlayedNote.value
  }

  /** The match is symmetric and never holds before a key was played. */
  lemma NotesMatchSymmetric(a: Option<string>, b: Option<string>)
    ensures NotesMatch(a, b) == NotesMatch(b, a)
    ensures !NotesMatch(a, None)
  {
  }

  // ---------------------------------------------------------------------------
  // The component's state

  class PianoState {
    var sequences: seq<SavedSequence>
    var currentSequence: Option<int>
    var sequenceName: string
    var sequence: seq<Item>
    var isRecording: bool
    var isPlaying: bool
    var currentDuration: real
    var lastPlayedNote: Option<string>
    /**
     * React compares effect dependencies by identity, and every `setSequences`
     * builds a new array, even one equal to the old. `listVersion` counts those
     * replacements; the effect remembers the selection and the version it last
     * ran with.
     */
    var listVersion: nat
    var effectSelection: Option<int>
    var effectListVersion: nat

    /** The selected id, when there is one, belongs to a saved sequence. */
    ghost predicate Valid()
      reads this
    {
      currentSequence.Some? ==> currentSequence.value in Ids(sequences)
    }

    /** The selection effect has seen the current selection and the current list array. */
    predicate Settled()
      reads this
    {
      effectSelection == currentSequence && effectListVersion == listVersion
    }

    /** The first render, with the list read back from storage; the mount effect changes nothing. */
    constructor (saved: seq<SavedSequence>)
      ensures Valid() && Settled()
      ensures sequences == saved && currentSequence == None && sequenceName == [] && sequence == []
      ensures !isRecording && !isPlaying && currentDuration == InitialDuration && lastPlayedNote == None
    {
      sequences := saved;
      currentSequence := None;
      sequenceName := [];
      sequence := [];
      isRecording := false;
      isPlaying := false;
      currentDuration := InitialDuration;
      lastPlayedNote := None;
      listVersion := 0;
      effectSelection := None;
      effectListVersion := 0;
    }

    /** `playPianoNote`: remember the key, and append it to the sequence while recording. */
    method PlayPianoNote(audioSrc: string, noteName: string, noteCode: string)
      modifies this`lastPlayedNote, this`sequence
      ensures lastPlayedNote == Some(noteName)
      ensures isRecording ==> sequence == old(sequence) + [Note(noteCode, noteName, audioSrc, currentDuration)]
      ensures !isRecording ==> sequence == old(sequence)
    {
      lastPlayedNote := Some(noteName);
      if isRecording {
        sequence := sequence + [Note(noteCode, noteName, audioSrc, currentDuration)];
      }
    }

    /** `addPause`: append a pause of the current duration while recording. */
    method AddPause()
      modifies this`sequence
      ensures isRecording ==> sequence == old(sequence) + [Pause(currentDuration)]
      ensures !isRecording ==> sequence == old(sequence)
    {
      if isRecording {
        sequence := sequence + [Pause(currentDuration)];
      }
    }

    /** `toggleRecording`: flip recording; playback is marked stopped. */
    method ToggleRecording()
      modifies this`isRecording, this`isPlaying
      ensures isRecording == !old(isRecording) && !isPlaying
    {
      isRecording := !isRecording;
      if isPlaying {
        isPlaying := false;
      }
    }

    /** `clearSequence`. */
    method ClearSequence()
      modifies this`sequence
      ensures sequence == []
    {
      sequence := [];
    }

    /** `handleDurationChange`, with the selected option already parsed. */
    method HandleDurationChange(duration: real)
      modifies this`currentDuration
      ensures currentDuration == duration
    {
      currentDuration := duration;
    }

    /** `updateNoteDuration`, with the selected option already parsed. */
    method UpdateNoteDuration(index: int, newDuration: real)
      modifies this`sequence
      ensures sequence == UpdateDuration(old(sequence), index, newDuration)
    {
      sequence := UpdateDuration(sequence, index, newDuration);
    }

    /** `removeNoteFromSequence`. */
    method RemoveNoteFromSequence(index: int)
      modifies this`sequence
      ensures sequence == RemoveAt(old(sequence), index)
    {
      sequence := RemoveAt(sequence, index);
    }

    /** `createNewSequence`: stop recording, deselect, empty the sequence, propose a name. */
    method CreateNewSequence()
      requires Valid()
      modifies this`isRecording, this`currentSequence, this`sequence, this`sequenceName
      ensures Valid()
      ensures !isRecording && currentSequence == None && sequence == [] && sequenceName == NewSequenceName
    {
      if isRecording {
        isRecording := false;
      }
      currentSequence := None;
      sequence := [];
      sequenceName := NewSequenceName;
    }

    /**
     * `saveCurrentSequence`, with `Date.now()` passed in as `now`. An empty
     * sequence is not saved; with nothing selected a new sequence is appended
     * and selected, otherwise every saved sequence with the selected id takes
     * the name and the notes.
     */
    method SaveCurrentSequence(now: int)
      requires Valid()
      modifies this`sequences, this`currentSequence, this`listVersion
      ensures Valid()
      ensures old(sequence) == [] ==> sequences == old(sequences) && currentSequence == old(currentSequence) && listVersion == old(listVersion)
      ensures old(sequence) != [] ==> listVersion == old(listVersion) + 1
      ensures old(sequence) != [] && old(currentSequence).None? ==>
        sequences == old(sequences) + [SavedSequence(now, SavedName(sequenceName), sequence)] && currentSequence == Some(now)
      ensures old(sequence) != [] && old(currentSequence).Some? ==>
        sequences == UpdateById(old(sequences), old(currentSequence).value, SavedName(sequenceName), sequence)
        && currentSequence == old(currentSequence)
    {
      if sequence == [] {
        return;
      }
      var name := SavedName(sequenceName);
      if currentSequence.None? {
        var newSequence := SavedSequence(now, name, sequence);
        AppendedId(sequences, newSequence);
        sequences := sequences + [newSequence];
        currentSequence := Some(now);
        listVersion := listVersion + 1;
      } else {
        UpdateByIdThenFind(sequences, currentSequence.value, name, sequence);
        sequences := UpdateById(sequences, currentSequence.value, name, sequence);
        listVersion := listVersion + 1;
      }
    }

    /** `deleteSequence`: drop every sequence with that id; deleting the selected one clears the editor. */
    method DeleteSequence(id: int)
      requires Valid()
      modifies this`sequences, this`currentSequence, this`sequence, this`sequenceName, this`listVersion
      ensures Valid()
      ensures sequences == DeleteById(old(sequences), id) && listVersion == old(listVersion) + 1
      ensures old(currentSequence) == Some(id) ==> currentSequence == None && sequence == [] && sequenceName == []
      ensures old(currentSequence) != Some(id) ==>
        currentSequence == old(currentSequence) && sequence == old(sequence) && sequenceName == old(sequenceName)
    {
      var before := sequences;
      sequences := DeleteById(sequences, id);
      listVersion := listVersion + 1;
      if currentSequence == Some(id) {
        currentSequence := None;
        sequence := [];
        sequenceName := [];
      } else if currentSequence.Some? {
        var s :| s in before && s.id == currentSequence.value;
        assert s in sequences;
      }
    }

    /** The state update of `importSequences` once the file has been parsed into a list. */
    method ImportSequences(imported: seq<SavedSequence>)
      requires Valid()
      modifies this`sequences, this`listVersion
      ensures Valid()
      ensures sequences == MergeImported(old(sequences), imported) && listVersion == old(listVersion) + 1
    {
      sequences := MergeImported(sequences, imported);
      listVersion := listVersion + 1;
    }

    /** A click on a saved sequence selects it. */
    method SelectSequence(id: int)
      requires id in Ids(sequences)
      modifies this`currentSequence
      ensures Valid() && currentSequence == Some(id)
    {
      currentSequence := Some(id);
    }

    /** Typing in the name field. */
    method SetSequenceName(name: string)
      modifies this`sequenceName
      ensures sequenceName == name
    {
      sequenceName := name;
    }

    /**
     * The selection effect, run after a render when `currentSequence` differs
     * from what it last ran with or `sequences` is a new array: a selected sequence is
     * loaded into the editor (so any unsaved edit of it is replaced), and
     * with nothing selected the editor is emptied.
     */
    method RunSelectionEffect()
      requires Valid()
      modifies this`sequence, this`sequenceName, this`effectSelection, this`effectListVersion
      ensures Settled()
      ensures old(Settled()) ==> sequence == old(sequence) && sequenceName == old(sequenceName)
      ensures !old(Settled()) && currentSequence.Some? ==>
        var found := FindById(sequences, currentSequence.value);
        found.Some? && sequence == found.value.notes && sequenceName == found.value.name
      ensures !old(Settled()) && currentSequence.None? ==> sequence == [] && sequenceName == []
    {
      if !Settled() {
        if currentSequence.Some? {
          var found := FindById(sequences, currentSequence.value);
          if found.Some? {
            sequence := found.value.notes;
            sequenceName := found.value.name;
          }
        } else {
          sequence := [];
          sequenceName := [];
        }
        effectSelection := currentSequence;
        effectListVersion := listVersion;
      }
    }

    /**
     * The selection effect without its clearing branch: the handlers that
     * deselect (`createNewSequence`, `deleteSequence`) already reset the
     * editor themselves, so an empty selection leaves it as they set it.
     */
    method RunSelectionEffectIntended()
      requires Valid()
      modifies this`sequence, this`sequenceName, this`effectSelection, this`effectListVersion
      ensures Settled()
      ensures (old(Settled()) || currentSequence.None?) ==> sequence == old(sequence) && sequenceName == old(sequenceName)
      ensures !old(Settled()) && currentSequence.Some? ==>
        var found := FindById(sequences, currentSequence.value);
        found.Some? && sequence == found.value.notes && sequenceName == found.value.name
    {
      if !Settled() {
        if currentSequence.Some? {
          var found := FindById(sequences, currentSequence.value);
          if found.Some? {
            sequence := found.value.notes;
            sequenceName := found.value.name;
          }
        }
        effectSelection := currentSequence;
        effectListVersion := listVersion;
      }
    }

    /**
     * Pressing "new sequence" and letting the effect run: when a sequence was
     * selected, the effect sees the selection change to none and empties the
     * proposed name again.
     */
    method CreateNewSequenceAndRender()
      requires Valid() && Settled()
      modifies this`isRecording, this`currentSequence, this`sequence, this`sequenceName, this`effectSelection, this`effectListVersion
      ensures Valid() && Settled()
      ensures currentSequence == None && sequence == []
      ensures sequenceName == if old(currentSequence).Some? then [] else NewSequenceName
    {
      CreateNewSequence();
      RunSelectionEffect();
    }

    /** The same with the intended effect: the proposed name is always kept. */
    method CreateNewSequenceAndRenderIntended()
      requires Valid() && Settled()
      modifies this`isRecording, this`currentSequence, this`sequence, this`sequenceName, this`effectSelection, this`effectListVersion
      ensures Valid() && Settled()
      ensures currentSequence == None && sequence == [] && sequenceName == NewSequenceName
    {
      CreateNewSequence();
      RunSelectionEffectIntended();
    }
  }

  /**
   * A concrete run of the editor: save a recorded sequence (which selects it),
   * let the effect run, then press "new sequence" and let the effect run again.
   * The name field ends up empty instead of showing "Nueva secuencia".
   */
  method NewSequenceNameAfterSave() returns (name: string)
    ensures name == []
  {
    var p := new PianoState([]);
    p.ToggleRecording();
    p.PlayPianoNote("C3.mp3", "Do", "C3");
    p.SaveCurrentSequence(1);
    p.RunSelectionEffect();
    p.CreateNewSequenceAndRender();
    name := p.sequenceName;
  }

  /**
   * A concrete run: nothing selected, a pause recorded, then an import whose
   * ids are all listed already. The list comes back equal but as a new array,
   * so the effect runs and, with nothing selected, empties the recording.
   */
  method ImportOfKnownIdsClearsRecording() returns (recorded: seq<Item>)
    ensures recorded == []
  {
    var known := SavedSequence(7, "A", [Pause(InitialDuration)]);
    var p := new PianoState([known]);
    p.ToggleRecording();
    p.AddPause();
    assert p.sequence == [Pause(InitialDuration)];
    p.ImportSequences([known]);
    p.RunSelectionEffect();
    recorded := p.sequence;
  }
}
