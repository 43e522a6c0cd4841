/// The voice-notes page: recording a note from the microphone, importing an
/// audio file, playing notes one at a time, and deleting them.
///
/// The browser is reduced to what the handlers observe of it. Microphone
/// acquisition is a success flag; the recorder's `dataavailable` and `stop`
/// events are methods the environment calls; the page's `<audio>` elements
/// are a map from note id to their `paused` flag; object URLs stand for the
/// bytes of the blob they point to; ids (`Date.now().toString()`) and dates
/// (`toLocaleDateString()`) are parameters.
module VoiceNotes {
  import opened Common

  /** One entry of the notes list; `audio` is the content behind the note's object URL. */
  datatype VoiceNote = VoiceNote(id: string, audio: seq<bv8>, title: string, date: string)

  /** The file chosen in the upload input: its name, declared MIME type and content. */
  datatype AudioFile = AudioFile(name: string, mimeType: string, content: seq<bv8>)

  /** What the page can observe of its MediaRecorder. `Stopping`: `stop()` was called
      and the final `dataavailable` and the `stop` event are still to come. */
  datatype RecorderState = Recording | Stopping | Inactive

  /** The recorder held in `mediaRecorderRef`, with the note number its `onstop`
      closure captured: `voiceNotes.length + 1` as it stood when recording started. */
  datatype Recorder = Recorder(state: RecorderState, noteNumber: nat)

  /** A command the page sends to one of its audio elements. */
  datatype AudioCommand = Play(id: string) | Pause(id: string)

  /** The Blob built from the recorded chunks: their bytes, one after the other. */
  function Concat(chunks: seq<seq<bv8>>): (r: seq<bv8>)
    ensures r == [] <==> forall c | c in chunks :: c == []
  {
    if chunks == [] then []
    else
      var rest := Concat(chunks[1..]);
      assert (forall c | c in chunks :: c == []) <==>
             chunks[0] == [] && forall c | c in chunks[1..] :: c == [] by {
        assert chunks[0] in chunks;
        assert forall c | c in chunks[1..] :: c in chunks;
        assert forall c | c in chunks :: c == chunks[0] || c in chunks[1..];
      }
      chunks[0] + rest
  }

  lemma {:induction false} ConcatSplit(a: seq<seq<bv8>>, b: seq<seq<bv8>>)
    ensures Concat(a + b) == Concat(a) + Concat(b)
  {
    if a == [] {
      assert a + b == b;
    } else {
      assert (a + b)[0] == a[0];
      assert (a + b)[1..] == a[1..] + b;
      ConcatSplit(a[1..], b);
    }
  }

  /** Each chunk sits in the recording right after the chunks that arrived before it. */
  lemma {:induction false} ConcatAround(chunks: seq<seq<bv8>>, k: nat)
    requires k < |chunks|
    ensures Concat(chunks) == Concat(chunks[..k]) + chunks[k] + Concat(chunks[k + 1..])
  {
    var before, rest := chunks[..k], chunks[k..];
    assert chunks == before + rest;
    ConcatSplit(before, rest);
    assert rest == [chunks[k]] + chunks[k + 1..];
    ConcatSplit([chunks[k]], chunks[k + 1..]);
    ConcatSingle(chunks[k]);
  }

  lemma ConcatSingle(c: seq<bv8>)
    ensures Concat([c]) == c
  {
    assert [c][1..] == [];
  }

  /** The title `Voice Note ${n}` given to a recorded note: the number can be read back from it. */
  function RecordedTitle(n: nat): (t: string)
    ensures |t| > 11 && t[..11] == "Voice Note "
    ensures IsDecimal(t[11..]) && ParseDecimal(t[11..]) == n
    ensures n > 0 ==> t[11] != '0'
    ensures n == 0 ==> t == "Voice Note 0"
  {
    ParseNatToString(n);
    var t := "Voice Note " + NatToString(n);
    assert t[11..] == NatToString(n);
    t
  }

  /** The regular expression `/\.[^/.]+$/` matches `name` at `k`: a dot, then at
      least one character up to the end, none of them a dot or a slash. */
  predicate ExtensionAt(name: string, k: nat) {
    k + 1 < |name| && name[k] == '.' &&
    forall j | k < j < |name| :: name[j] != '.' && name[j] != '/'
  }

  /** Where the extension pattern matches, if anywhere; it can match at one place only. */
  function ExtensionDot(name: string): (r: Option<nat>)
    ensures r.Some? ==> ExtensionAt(name, r.value)
    ensures r.None? ==> forall k: nat :: !ExtensionAt(name, k)
    decreases |name|
  {
    if |name| < 2 then None
    else
      var last := name[|name| - 1];
      if last == '.' || last == '/' then None
      else if name[|name| - 2] == '.' then Some(|name| - 2)
      else
        var prefix := name[..|name| - 1];
        var r := ExtensionDot(prefix);
        assert forall k: nat :: ExtensionAt(name, k) ==> ExtensionAt(prefix, k);
        r
  }

  /** `name.replace(/\.[^/.]+$/, "")`: the name without its final extension. */
  function StripExtension(name: string): (r: string)
    ensures r <= name
    ensures forall k: nat | ExtensionAt(name, k) :: r == name[..k]
    ensures (forall k: nat :: !ExtensionAt(name, k)) ==> r == name
  {
    match ExtensionDot(name)
    case Some(k) =>
      assert forall k': nat | ExtensionAt(name, k') :: k' == k;
      name[..k]
    case None => name
  }

  lemma StripExtensionExamples()
    ensures StripExtension("song.mp3") == "song"
    ensures StripExtension("my.song.ogg") == "my.song"
    ensures StripExtension(".ogg") == ""
    ensures StripExtension("a") == "a"
    ensures StripExtension("a.") == "a."
    ensures StripExtension("take.1/raw") == "take.1/raw"
  {
    assert ExtensionAt("song.mp3", 4);
    assert ExtensionAt("my.song.ogg", 7);
    assert ExtensionAt(".ogg", 0);
    assert forall k: nat :: !ExtensionAt("a.", k);
    assert "take.1/raw"[6] == '/';
    assert forall k: nat :: !ExtensionAt("take.1/raw", k);
  }

  /** The note `handleFileUpload` appends for the chosen file, if it appends one. */
  function UploadedNote(file: Option<AudioFile>, id: string, date: string): (r: Option<VoiceNote>)
    ensures r.Some? <==> file.Some? && StartsWith(file.value.mimeType, "audio/")
    ensures r.Some? ==> r.value.id == id && r.value.audio == file.value.content &&
                        r.value.title == StripExtension(file.value.name) && r.value.date == date
  {
    if file.Some? && StartsWith(file.value.mimeType, "audio/") then
      Some(VoiceNote(id, file.value.content, StripExtension(file.value.name), date))
    else None
  }

  function Ids(notes: seq<VoiceNote>): set<string> {
    set n | n in notes :: n.id
  }

  function IdIsNot(id: string): (p: VoiceNote -> bool)
    ensures forall n :: p(n) <==> n.id != id
  {
    (n: VoiceNote) => n.id != id
  }

  /** `notes.filter(note => note.id !== id)`. */
  function RemoveNote(notes: seq<VoiceNote>, id: string): (r: seq<VoiceNote>)
    ensures forall n | n in r :: n in notes && n.id != id
    ensures forall n | n in notes && n.id != id :: n in r
  {
    Filter(notes, IdIsNot(id))
  }

  /** Removing a note removes exactly its id from the page's ids. */
  lemma RemoveNoteIds(notes: seq<VoiceNote>, id: string)
    ensures Ids(RemoveNote(notes, id)) == Ids(notes) - {id}
  {
    var r := RemoveNote(notes, id);
    forall x | x in Ids(notes) - {id} ensures x in Ids(r) {
      var n :| n in notes && n.id == x;
      assert n in r;
    }
  }

  /** Removal keeps the surviving notes in their original order. */
  lemma RemoveNoteConcat(a: seq<VoiceNote>, b: seq<VoiceNote>, id: string)
    ensures RemoveNote(a + b, id) == RemoveNote(a, id) + RemoveNote(b, id)
  {
    FilterConcat(a, b, IdIsNot(id));
  }

  /** The audio elements after one more note is rendered: `document.getElementById`
      finds the first element with an id, so a repeated id adds nothing it can reach. */
  function Mount(paused: map<string, bool>, id: string): (r: map<string, bool>)
    ensures r.Keys == paused.Keys + {id}
    ensures forall k | k in paused :: r[k] == paused[k]
    ensures id !in paused ==> r[id]
  {
    if id in paused then paused else paused[id := true]
  }

  /** At most one audio element plays, and it is the one `currentlyPlaying` names. */
  predicate SingleActive(paused: map<string, bool>, current: Option<string>) {
    forall id | id in paused && !paused[id] :: current == Some(id)
  }

  lemma AtMostOnePlaying(paused: map<string, bool>, current: Option<string>)
    requires SingleActive(paused, current)
    ensures |set id | id in paused && !paused[id]| <= 1
  {
    var playing := set id | id in paused && !paused[id];
    if current.Some? && current.value in playing {
      assert playing == {current.value};
    } else {
      assert playing == {};
    }
  }

  /** The `prevAudio?.pause()` step: the previous note is paused if its element is still mounted. */
  function PausePrevious(paused: map<string, bool>, previous: Option<string>): (r: map<string, bool>)
    ensures r.Keys == paused.Keys
    ensures forall k | k in r :: r[k] == if previous == Some(k) then true else paused[k]
  {
    if previous.Some? && previous.value in paused then paused[previous.value := true] else paused
  }

  /** The pause command that step sends, if any. */
  function PauseCommands(paused: map<string, bool>, previous: Option<string>): (r: seq<AudioCommand>)
    ensures r == [] || (previous.Some? && previous.value in paused && r == [Pause(previous.value)])
    ensures previous.Some? && previous.value in paused ==> r != []
  {
    if previous.Some? && previous.value in paused then [Pause(previous.value)] else []
  }

  class VoiceNotesPage {
    var voiceNotes: seq<VoiceNote>
    var isRecording: bool
    var currentlyPlaying: Option<string>
    var recorder: Option<Recorder>
    var audioChunks: seq<seq<bv8>>
    /** The page's `<audio>` elements by id, each mapped to its `paused` flag. */
    var paused: map<string, bool>
    /** Every play and pause command sent to an audio element, oldest first. */
    ghost var commands: seq<AudioCommand>

    ghost predicate Valid()
      reads this
    {
      (isRecording <==> recorder.Some? && recorder.value.state == Recording) &&
      paused.Keys == Ids(voiceNotes) &&
      "" !in paused &&
      SingleActive(paused, currentlyPlaying)
    }

    constructor ()
      ensures Valid()
      ensures voiceNotes == [] && !isRecording && currentlyPlaying == None
      ensures recorder == None && audioChunks == [] && paused == map[] && commands == []
    {
      voiceNotes, isRecording, currentlyPlaying := [], false, None;
      recorder, audioChunks, paused, commands := None, [], map[], [];
    }

    /** The record button: it offers stop while recording and start otherwise. */
    method OnRecordButton(micGranted: bool)
      requires Valid()
      requires recorder.None? || recorder.value.state != Stopping
      modifies this
      ensures Valid()
      ensures voiceNotes == old(voiceNotes) && paused == old(paused)
      ensures currentlyPlaying == old(currentlyPlaying) && commands == old(commands)
      ensures old(isRecording) ==>
        !isRecording && recorder == Some(old(recorder.value).(state := Stopping)) &&
        audioChunks == old(audioChunks)
      ensures !old(isRecording) && micGranted ==>
        isRecording && recorder == Some(Recorder(Recording, |voiceNotes| + 1)) && audioChunks == []
      ensures !old(isRecording) && !micGranted ==>
        !isRecording && recorder == old(recorder) && audioChunks == old(audioChunks)
    {
      if isRecording {
        StopRecording();
      } else {
        StartRecording(micGranted);
      }
    }

    /** `startRecording`, with microphone acquisition reduced to whether it succeeded. */
    method StartRecording(micGranted: bool)
      requires Valid()
      requires recorder.None? || recorder.value.state == Inactive
      modifies this
      ensures Valid()
      ensures voiceNotes == old(voiceNotes) && paused == old(paused)
      ensures currentlyPlaying == old(currentlyPlaying) && commands == old(commands)
      ensures micGranted ==>
        isRecording && recorder == Some(Recorder(Recording, |voiceNotes| + 1)) && audioChunks == []
      ensures !micGranted ==>
        !isRecording && recorder == old(recorder) && audioChunks == old(audioChunks)
    {
      if micGranted {
        recorder := Some(Recorder(Recording, |voiceNotes| + 1));
        audioChunks := [];
        isRecording := true;
      }
    }

    /** The recorder's `ondataavailable` handler: the chunk joins the buffer at the end. */
    method OnDataAvailable(chunk: seq<bv8>)
      requires Valid()
      requires recorder.Some? && recorder.value.state != Inactive
      modifies this`audioChunks
      ensures Valid()
      ensures audioChunks == old(audioChunks) + [chunk]
      ensures Concat(audioChunks) == Concat(old(audioChunks)) + chunk
    {
      ConcatSplit(audioChunks, [chunk]);
      assert Concat([chunk]) == chunk + Concat([]);
      audioChunks := audioChunks + [chunk];
    }

    /** `stopRecording`: acts only when a recorder exists and recording is on. */
    method StopRecording()
      requires Valid()
      modifies this`recorder, this`isRecording
      ensures Valid()
      ensures old(recorder.Some? && isRecording) ==>
        !isRecording && recorder == Some(old(recorder.value).(state := Stopping))
      ensures !old(recorder.Some? && isRecording) ==>
        isRecording == old(isRecording) && recorder == old(recorder)
    {
      if recorder.Some? && isRecording {
        recorder := Some(recorder.value.(state := Stopping));
        isRecording := false;
      }
    }

    /** The recorder's `onstop` handler: the chunks become one note, appended at the end,
        titled with the number captured when recording started. */
    method OnRecorderStop(id: string, date: string)
      requires Valid()
      requires recorder.Some? && recorder.value.state == Stopping
      requires id != ""
      modifies this`voiceNotes, this`paused, this`recorder
      ensures Valid()
      ensures voiceNotes ==
        old(voiceNotes) + [VoiceNote(id, Concat(audioChunks), RecordedTitle(old(recorder.value.noteNumber)), date)]
      ensures paused == Mount(old(paused), id)
      ensures recorder == Some(old(recorder.value).(state := Inactive))
    {
      var note := VoiceNote(id, Concat(audioChunks), RecordedTitle(recorder.value.noteNumber), date);
      AppendNote(note);
      recorder := Some(recorder.value.(state := Inactive));
    }

    /** `setVoiceNotes(prev => [...prev, note])`, and the new element the render mounts. */
    method AppendNote(note: VoiceNote)
      requires Valid()
      requires note.id != ""
      modifies this`voiceNotes, this`paused
      ensures Valid()
      ensures voiceNotes == old(voiceNotes) + [note]
      ensures paused == Mount(old(paused), note.id)
    {
      assert Ids(voiceNotes + [note]) == Ids(voiceNotes) + {note.id} by {
        assert note in voiceNotes + [note];
        forall n | n in voiceNotes ensures n in voiceNotes + [note] { }
      }
      voiceNotes := voiceNotes + [note];
      paused := Mount(paused, note.id);
    }

    /** `togglePlayback`: the button of a rendered note, so its element exists. */
    method TogglePlayback(noteId: string)
      requires Valid()
      requires noteId in paused
      modifies this`paused, this`currentlyPlaying, this`commands
      ensures Valid()
      ensures old(currentlyPlaying) == Some(noteId) ==>
        currentlyPlaying == old(currentlyPlaying) &&
        paused == old(paused)[noteId := !old(paused)[noteId]] &&
        commands == old(commands) + [if old(paused)[noteId] then Play(noteId) else Pause(noteId)]
      ensures old(currentlyPlaying) != Some(noteId) ==>
        currentlyPlaying == Some(noteId) &&
        paused == PausePrevious(old(paused), old(currentlyPlaying))[noteId := false] &&
        commands == old(commands) + PauseCommands(old(paused), old(currentlyPlaying)) + [Play(noteId)]
    {
      if currentlyPlaying == Some(noteId) {
        if paused[noteId] {
          paused := paused[noteId := false];
          commands := commands + [Play(noteId)];
        } else {
          paused := paused[noteId := true];
          commands := commands + [Pause(noteId)];
        }
      } else {
        // `if (currentlyPlaying)`: ids are never empty, so truthiness is presence
        if currentlyPlaying.Some? && currentlyPlaying.value != "" {
          var previous := currentlyPlaying.value;
          if previous in paused {
            paused := paused[previous := true];
            commands := commands + [Pause(previous)];
          }
        }
        paused := paused[noteId := false];
        commands := commands + [Play(noteId)];
        currentlyPlaying := Some(noteId);
      }
    }

    /** A note's `ended` event: the element stops by itself and the handler clears the pointer. */
    method OnEnded(noteId: string)
      requires Valid()
      requires noteId in paused && !paused[noteId]
      modifies this`paused, this`currentlyPlaying
      ensures Valid()
      ensures paused == old(paused)[noteId := true]
      ensures currentlyPlaying == None
    {
      paused := paused[noteId := true];
      currentlyPlaying := None;
    }

    /** `deleteNote`: the note's element unmounts, and `currentlyPlaying` is left as it was. */
    method DeleteNote(noteId: string)
      requires Valid()
      modifies this`voiceNotes, this`paused
      ensures Valid()
      ensures voiceNotes == RemoveNote(old(voiceNotes), noteId)
      ensures paused == old(paused) - {noteId}
      ensures currentlyPlaying == old(currentlyPlaying)
    {
      RemoveNoteIds(voiceNotes, noteId);
      voiceNotes := RemoveNote(voiceNotes, noteId);
      paused := paused - {noteId};
    }

    /** `handleFileUpload`: only an audio file is added. */
    method HandleFileUpload(file: Option<AudioFile>, id: string, date: string)
      requires Valid()
      requires id != ""
      modifies this`voiceNotes, this`paused
      ensures Valid()
      ensures UploadedNote(file, id, date).None? ==>
        voiceNotes == old(voiceNotes) && paused == old(paused)
      ensures UploadedNote(file, id, date).Some? ==>
        voiceNotes == old(voiceNotes) + [UploadedNote(file, id, date).value] &&
        paused == Mount(old(paused), id)
    {
      var note := UploadedNote(file, id, date);
      if note.Some? {
        AppendNote(note.value);
      }
    }
  }

  /** Deleting the first of two notes with different ids leaves the second. */
  lemma RemoveFirstOfTwo(a: VoiceNote, b: VoiceNote)
    requires a.id != b.id
    ensures RemoveNote([a, b], a.id) == [b]
  {
    assert [a, b] == [a] + [b];
    RemoveNoteConcat([a], [b], a.id);
    assert [a][1..] == [] && [b][1..] == [];
  }

  /** One recording session from the record button's start to the recorder's stop event,
      with two chunks delivered in between. */
  method RecordTwoChunks(page: VoiceNotesPage, c1: seq<bv8>, c2: seq<bv8>, id: string)
    requires page.Valid() && !page.isRecording
    requires page.recorder.None? || page.recorder.value.state == Inactive
    requires id != ""
    modifies page
    ensures page.Valid() && !page.isRecording
    ensures page.recorder.Some? && page.recorder.value.state == Inactive
    ensures page.voiceNotes ==
      old(page.voiceNotes) + [VoiceNote(id, c1 + c2, RecordedTitle(|old(page.voiceNotes)| + 1), "today")]
    ensures page.currentlyPlaying == old(page.currentlyPlaying)
  {
    page.StartRecording(true);
    page.OnDataAvailable(c1);
    page.OnDataAvailable(c2);
    page.StopRecording();
    assert Concat(page.audioChunks) == c1 + c2;
    page.OnRecorderStop(id, "today");
  }

  /** The titles of the first two recorded notes. */
  lemma FirstTitles()
    ensures RecordedTitle(1) == "Voice Note 1" && RecordedTitle(2) == "Voice Note 2"
  {
    assert NatToString(1) == "1";
    assert NatToString(2) == "2";
  }

  /** Two recordings: each note holds its own chunks in order and takes the next number. */
  method RecordTwiceScenario(c1: seq<bv8>, c2: seq<bv8>, c3: seq<bv8>, c4: seq<bv8>)
    returns (notes: seq<VoiceNote>)
    ensures notes == [
      VoiceNote("1", c1 + c2, "Voice Note 1", "today"),
      VoiceNote("2", c3 + c4, "Voice Note 2", "today")]
  {
    var page := new VoiceNotesPage();
    RecordTwoChunks(page, c1, c2, "1");
    RecordTwoChunks(page, c3, c4, "2");
    FirstTitles();
    assert page.voiceNotes == [
      VoiceNote("1", c1 + c2, "Voice Note 1", "today"),
      VoiceNote("2", c3 + c4, "Voice Note 2", "today")];
    notes := page.voiceNotes;
  }

  /** Playing one note and then another pauses the first before playing the second;
      deleting the first afterwards leaves the pointer on the second. */
  method PlayTwoThenDeleteScenario(a: VoiceNote, b: VoiceNote) returns (notes: seq<VoiceNote>, playing: Option<string>)
    requires a.id == "1" && b.id == "2"
    ensures notes == [b] && playing == Some("2")
  {
    var page := new VoiceNotesPage();
    page.AppendNote(a);
    page.AppendNote(b);
    assert page.voiceNotes == [a, b];
    page.TogglePlayback("1");
    page.TogglePlayback("2");
    assert page.currentlyPlaying == Some("2");
    assert page.commands == [Play("1"), Pause("1"), Play("2")];

    RemoveFirstOfTwo(a, b);
    page.DeleteNote("1");
    notes, playing := page.voiceNotes, page.currentlyPlaying;
  }

  /** The number comes from the list length when recording started, so after a deletion
      a new recording can repeat the title of a note still in the list. */
  method RepeatedTitleScenario(c: seq<bv8>) returns (titles: seq<string>)
    ensures titles == ["Voice Note 2", "Voice Note 2"]
  {
    var page := new VoiceNotesPage();
    RecordTwoChunks(page, c, c, "1");
    RecordTwoChunks(page, c, c, "2");
    var first, second := page.voiceNotes[0], page.voiceNotes[1];
    assert page.voiceNotes == [first, second];
    RemoveFirstOfTwo(first, second);
    page.DeleteNote("1");
    assert page.voiceNotes == [second] && |page.voiceNotes| == 1;
    RecordTwoChunks(page, c, c, "3");
    assert page.voiceNotes[0].title == page.voiceNotes[1].title == RecordedTitle(2);
    titles := [page.voiceNotes[0].title, page.voiceNotes[1].title];
    FirstTitles();
  }
}
