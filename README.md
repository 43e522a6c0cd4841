# Whisper of Love — a Dafny model of the page handlers

The app is a password-gated set of pages: a countdown to four special dates,
a media gallery with mood tags and filters, a voice-note recorder and player,
and a five-question quiz, behind a hub page. Almost all of it is markup. This
project models the logic in its event handlers: the state each page keeps
(`useState` and `useRef` fields become fields of a Dafny class) and what each
handler does to it (a method whose `ensures` gives the whole new state in
terms of the old). The new values the handlers compute (`map`, `filter`,
spreads, the regex title, the countdown arithmetic, the result thresholds)
are functions, and lemmas state what the pages promise about them.

Modules, one per source file, plus one shared module:

- `Common` (`common.dfy`): `Option`, `startsWith`, an order-preserving `Filter`
  with its laws, and decimal rendering of numbers with its round trip.
- `VoiceNotes` (`voice_notes.dfy`): `VoiceNotesPage.tsx`. The recording
  lifecycle (start, chunk arrival, stop, the recorder's stop event), the
  single-active-player coordinator over the page's `<audio>` elements, delete
  by id, and audio upload with the extension-stripping title.
- `Gallery` (`gallery.dfy`): `GalleryPage.tsx`. Item construction on drop,
  tag toggling, description update, delete, the filter-bar toggle and the
  tag/date filter.
- `Quiz` (`quiz.dfy`): `QuizPage.tsx`. The question table, the answer/advance
  state machine and the result message.
- `Countdown` (`countdown.dfy`): `CountdownPage.tsx`. The per-tick map from
  title to days/hours/minutes/seconds left.
- `App` (`app.dfy`): `App.tsx`. The password gate and the page router.

Browser services are inputs. Microphone acquisition is a success flag. The
recorder's `dataavailable` and `stop` events are methods the environment
calls. Each `<audio>` element is an entry of a map from note id to its
`paused` flag, and a ghost log records the play and pause commands in order.
An object URL stands for the bytes it points to. Ids (`Date.now()`,
`Math.random()`), dates, the clock and the quiz's one-second timer are
parameters or explicit steps (`Quiz.QuizPage.Advance`).

Three behaviours of the code a reader might not expect:

- Deleting the note that is playing does not clear `currentlyPlaying`
  (`VoiceNotesPage.tsx:75-77`). The pointer dangles. A later toggle of
  another note sends no pause, because `prevAudio?.pause()` finds no element.
- A recorded note's number is the list length when recording *started*,
  because the `onstop` closure captures `voiceNotes` then
  (`VoiceNotesPage.tsx:35`). After a deletion, a new recording can repeat the
  title of a note still in the list: `VoiceNotes.RepeatedTitleScenario`
  shows this.
- Nothing rejects a second start while recording, except the button. It
  offers start only when not recording (`VoiceNotesPage.tsx:108`).

## Model

| member | source | states |
|---|---|---|
| Common.Filter | project/src/components/VoiceNotesPage.tsx:76 | `filter` keeps exactly the elements the test accepts and is never longer than its input |
| Common.FilterConcat | project/src/components/GalleryPage.tsx:67 | filtering distributes over concatenation, so the kept elements stay in their original relative order |
| Common.FilterKeepsAll | project/src/components/GalleryPage.tsx:70-75 | a filter that rejects nothing returns its input unchanged |
| Common.FilterMultiset | project/src/components/GalleryPage.tsx:52 | a filter keeps every occurrence of an accepted value and drops every occurrence of a rejected one |
| Common.StartsWith | project/src/components/VoiceNotesPage.tsx:81 | JavaScript's `startsWith`: the prefix test the upload handler applies to a MIME type here, and the drop handler's `image/` test at `GalleryPage.tsx:31` |
| Common.NatToString | project/src/components/VoiceNotesPage.tsx:35 | the template literal renders a number as a non-empty string of decimal digits, with no leading zero, and `0` alone for zero |
| Common.ParseNatToString | project/src/components/VoiceNotesPage.tsx:35 | reading back the rendered digits gives the number |
| Common.NatToStringInjective | project/src/components/VoiceNotesPage.tsx:35 | different numbers render as different strings |
| VoiceNotes.Concat | project/src/components/VoiceNotesPage.tsx:30 | the recording's blob is the chunks' bytes one after the other, and it is empty exactly when every chunk is |
| VoiceNotes.ConcatSplit | project/src/components/VoiceNotesPage.tsx:26-30 | the blob of two runs of chunks is the blob of the first followed by the blob of the second |
| VoiceNotes.ConcatAround | project/src/components/VoiceNotesPage.tsx:26-30 | each chunk appears in the blob right after the bytes of the chunks that arrived before it |
| VoiceNotes.RecordedTitle | project/src/components/VoiceNotesPage.tsx:35 | a recorded title is `Voice Note ` followed by decimal digits that read back as the note number, with no leading zero (so a positive number fixes the title) |
| VoiceNotes.ExtensionAt | project/src/components/VoiceNotesPage.tsx:86 | the independent reading of `/\.[^/.]+$/`: the pattern matches at a position when a dot there is followed by at least one character up to the end, none a dot or a slash |
| VoiceNotes.ExtensionDot | project/src/components/VoiceNotesPage.tsx:86 | finds where `/\.[^/.]+$/` matches, if anywhere: a dot followed by a non-empty run with no dot or slash up to the end |
| VoiceNotes.StripExtension | project/src/components/VoiceNotesPage.tsx:86 | the title is a prefix of the file name: the name cut at the match when the extension pattern matches, and the whole name when it does not |
| VoiceNotes.StripExtensionExamples | project/src/components/VoiceNotesPage.tsx:86 | `song.mp3` gives `song`, `my.song.ogg` gives `my.song`, `.ogg` gives an empty title, and `a`, `a.` and `take.1/raw` are kept unchanged |
| VoiceNotes.UploadedNote | project/src/components/VoiceNotesPage.tsx:79-91 | a note is made exactly when a file was chosen and its type starts with `audio/`; it carries the file's content, the stripped name, the given id and date |
| VoiceNotes.RemoveNote | project/src/components/VoiceNotesPage.tsx:76 | delete keeps exactly the notes whose id differs from the deleted one |
| VoiceNotes.RemoveNoteConcat | project/src/components/VoiceNotesPage.tsx:76 | delete keeps the surviving notes in their original order |
| VoiceNotes.RemoveNoteIds | project/src/components/VoiceNotesPage.tsx:133-140 | after a delete, the ids that have an audio element are the old ones minus the deleted id |
| VoiceNotes.RemoveFirstOfTwo | project/src/components/VoiceNotesPage.tsx:76 | deleting the first of two notes with different ids leaves only the second |
| VoiceNotes.Mount | project/src/components/VoiceNotesPage.tsx:133-140 | rendering a new note adds its id to the elements, paused, and leaves existing elements as they were |
| VoiceNotes.SingleActive | project/src/components/VoiceNotesPage.tsx:56-73 | the coordinator's invariant: any audio element that is playing is the one `currentlyPlaying` names |
| VoiceNotes.AtMostOnePlaying | project/src/components/VoiceNotesPage.tsx:56-73 | under the single-active invariant, at most one audio element is playing |
| VoiceNotes.PausePrevious | project/src/components/VoiceNotesPage.tsx:65-68 | `prevAudio?.pause()` pauses the previously playing note if its element still exists and changes nothing else |
| VoiceNotes.PauseCommands | project/src/components/VoiceNotesPage.tsx:65-68 | one pause command goes to the previous note exactly when its element still exists, otherwise none |
| VoiceNotes.VoiceNotesPage.constructor | project/src/components/VoiceNotesPage.tsx:13-17 | the page starts with no notes, not recording, nothing playing, no recorder, an empty chunk buffer and no audio elements |
| VoiceNotes.VoiceNotesPage.Valid | project/src/components/VoiceNotesPage.tsx:13-17 | the page's invariant: `isRecording` agrees with a recording recorder, one audio element per note id, no empty id, and the single-active rule |
| VoiceNotes.VoiceNotesPage.OnRecordButton | project/src/components/VoiceNotesPage.tsx:107-108 | the record button stops a running recording, keeping the chunk buffer; otherwise it starts one: when granted, recording is on, the buffer is empty and the recorder holds the list length plus one; when refused, nothing changes |
| VoiceNotes.VoiceNotesPage.StartRecording | project/src/components/VoiceNotesPage.tsx:19-46 | with the microphone granted: recording starts, the chunk buffer is emptied, and the recorder captures the current list length plus one; refused: nothing changes |
| VoiceNotes.VoiceNotesPage.OnDataAvailable | project/src/components/VoiceNotesPage.tsx:25-27 | an arriving chunk is appended at the end of the buffer, so the blob grows by exactly its bytes |
| VoiceNotes.VoiceNotesPage.StopRecording | project/src/components/VoiceNotesPage.tsx:48-54 | acts only when a recorder exists and recording is on: the recorder is stopping and `isRecording` turns false; otherwise nothing changes |
| VoiceNotes.VoiceNotesPage.OnRecorderStop | project/src/components/VoiceNotesPage.tsx:29-39 | the stop event appends one note whose audio is the chunks since the start, concatenated in arrival order, titled with the number captured at start |
| VoiceNotes.VoiceNotesPage.AppendNote | project/src/components/VoiceNotesPage.tsx:89 | the spread append puts the note at the end of the list and mounts its element, keeping the page's invariant |
| VoiceNotes.VoiceNotesPage.TogglePlayback | project/src/components/VoiceNotesPage.tsx:56-73 | toggling the playing note flips its paused flag and keeps the pointer; toggling another pauses the previous note first, then plays the new one and points at it; at most one element plays afterwards |
| VoiceNotes.VoiceNotesPage.OnEnded | project/src/components/VoiceNotesPage.tsx:140 | a note that plays to its end is paused and `currentlyPlaying` becomes none |
| VoiceNotes.VoiceNotesPage.DeleteNote | project/src/components/VoiceNotesPage.tsx:75-77 | the notes with the id go, the rest keep their order, their element unmounts, and `currentlyPlaying` is left unchanged |
| VoiceNotes.VoiceNotesPage.HandleFileUpload | project/src/components/VoiceNotesPage.tsx:79-91 | an audio file appends exactly one note at the end; no file or a non-audio type leaves the list and the elements unchanged |
| VoiceNotes.RecordTwoChunks | project/src/components/VoiceNotesPage.tsx:19-54 | start, two chunks, stop and the stop event append one note holding the two chunks in order and the next number, and leave the playing pointer alone |
| VoiceNotes.FirstTitles | project/src/components/VoiceNotesPage.tsx:35 | the first two recorded notes are titled `Voice Note 1` and `Voice Note 2` |
| VoiceNotes.RecordTwiceScenario | project/src/components/VoiceNotesPage.tsx:19-54 | two recording sessions on a fresh page yield `Voice Note 1` and `Voice Note 2`, each holding its own two chunks in order |
| VoiceNotes.PlayTwoThenDeleteScenario | project/src/components/VoiceNotesPage.tsx:56-77 | playing note 1 then note 2 sends play 1, pause 1, play 2; deleting note 1 then leaves only note 2, still playing |
| VoiceNotes.RepeatedTitleScenario | project/src/components/VoiceNotesPage.tsx:35 | recording twice, deleting the first note and recording again leaves two notes both titled `Voice Note 2` |
| Gallery.Classify | project/src/components/GalleryPage.tsx:31 | a file is an image exactly when its type starts with `image/`, and a video otherwise |
| Gallery.NewItem | project/src/components/GalleryPage.tsx:28-35 | a dropped file becomes an untagged, undescribed item with its own id, URL and date, classified by its type |
| Gallery.NewItems | project/src/components/GalleryPage.tsx:28-36 | a drop makes one item per file, in file order |
| Gallery.ToggleMembership | project/src/components/GalleryPage.tsx:51-53 | after the toggle the tag is present exactly when it was absent, other tags are unaffected, adding appends once at the end, and removing drops every occurrence |
| Gallery.ToggleTwiceRestores | project/src/components/GalleryPage.tsx:114-118 | toggling a tag that was not selected, twice, restores the original selection |
| Gallery.ToggleItemTag | project/src/components/GalleryPage.tsx:48-58 | only items with the id change, only in their tags, which become the toggled tag list (so the tag is present exactly when it was absent and every other tag is kept); length and order are kept |
| Gallery.ToggleItemTagKeepsMoodTags | project/src/components/GalleryPage.tsx:176-179 | the item tag buttons offer only the mood tags, so toggling one keeps every item's tags among the mood tags |
| Gallery.SetDescription | project/src/components/GalleryPage.tsx:60-64 | only items with the id change, only in their description; length and order are kept |
| Gallery.RemoveItem | project/src/components/GalleryPage.tsx:66-68 | delete keeps exactly the items whose id differs from the deleted one |
| Gallery.RemoveItemConcat | project/src/components/GalleryPage.tsx:67 | delete keeps the surviving items in their relative order |
| Gallery.MatchesTags | project/src/components/GalleryPage.tsx:71 | the tag test: no tag selected, or the item carries one of the selected tags |
| Gallery.MatchesDate | project/src/components/GalleryPage.tsx:72 | the date test: no date chosen, or the item's date equals it |
| Gallery.Shows | project/src/components/GalleryPage.tsx:70-74 | the filter's callback accepts an item exactly when it passes both tests |
| Gallery.FilteredItems | project/src/components/GalleryPage.tsx:70-75 | an item is shown exactly when it shares a selected tag (or none is selected) and its date equals the date filter (or the filter is empty) |
| Gallery.FilteredItemsConcat | project/src/components/GalleryPage.tsx:70-75 | the grid is an order-preserving sublist of the items |
| Gallery.NoFilterShowsAll | project/src/components/GalleryPage.tsx:71-73 | with no tag selected and no date chosen, the grid shows the whole list |
| Gallery.GalleryPage.constructor | project/src/components/GalleryPage.tsx:19-22 | the gallery starts empty, with no tag selected, no date filter and not uploading |
| Gallery.GalleryPage.Visible | project/src/components/GalleryPage.tsx:70 | the grid shows a sublist of the items, and every item when no tag is selected and no date chosen |
| Gallery.GalleryPage.OnDrop | project/src/components/GalleryPage.tsx:24-38 | the new items go after the existing ones, which are untouched, and uploading ends false |
| Gallery.GalleryPage.ToggleTag | project/src/components/GalleryPage.tsx:48-58 | the item list becomes its tag-toggled version |
| Gallery.GalleryPage.UpdateDescription | project/src/components/GalleryPage.tsx:60-64 | the item list becomes its description-updated version |
| Gallery.GalleryPage.DeleteItem | project/src/components/GalleryPage.tsx:66-68 | the item list loses the items with the id |
| Gallery.GalleryPage.ToggleSelectedTag | project/src/components/GalleryPage.tsx:114-118 | the filter bar adds an absent tag and removes a present one |
| Gallery.GalleryPage.SetDateFilter | project/src/components/GalleryPage.tsx:132 | the date input sets the date filter |
| Quiz.AnswerKeysValid | project/src/components/QuizPage.tsx:12-43 | the table has five questions and every answer key is a valid option index |
| Quiz.GetResultMessage | project/src/components/QuizPage.tsx:74-79 | exactly one message: perfect at 100%, amazing from 80% below 100%, good job from 60% below 80%, and otherwise the last message |
| Quiz.MessageText | project/src/components/QuizPage.tsx:76-79 | the four result texts |
| Quiz.MessageTextsDistinct | project/src/components/QuizPage.tsx:76-79 | the four texts differ, so the text shown identifies the message |
| Quiz.ResultMessagesByScore | project/src/components/QuizPage.tsx:74-79 | five right is perfect, four amazing, three good job, and two or fewer fall through to the last message |
| Quiz.QuizPage.ScoreBounded | project/src/components/QuizPage.tsx:46-64 | the score never exceeds the questions answered, which never exceed five |
| Quiz.QuizPage.Valid | project/src/components/QuizPage.tsx:46-64 | the quiz invariant: the question index is in the table, the score is at most the questions answered, an advance is pending exactly while an answer is shown before the result, and the result shows only after the last question is answered |
| Quiz.QuizPage.constructor | project/src/components/QuizPage.tsx:46-49 | the quiz starts at question 0 with no selection, score 0 and the result hidden |
| Quiz.QuizPage.HandleAnswer | project/src/components/QuizPage.tsx:51-56 | the answer is recorded, the score rises by one exactly when it is the correct option, and the advance is scheduled; the current question stays within the table |
| Quiz.QuizPage.Advance | project/src/components/QuizPage.tsx:57-64 | before the last question: next question and selection cleared; on the last: the result shows and the question index stays; the score is kept |
| Quiz.QuizPage.ResetQuiz | project/src/components/QuizPage.tsx:67-72 | back to question 0, no selection, score 0, result hidden |
| Quiz.QuizPage.ResultText | project/src/components/QuizPage.tsx:100 | the result screen shows the perfect message exactly for a full score, and the last message exactly below 60% |
| Quiz.AllCorrectScenario | project/src/components/QuizPage.tsx:51-79 | answering all five questions correctly ends on the perfect message |
| Countdown.SpecialDates | project/src/components/CountdownPage.tsx:14-39 | the four special dates at local midnight in April 2024 |
| Countdown.SpecialDatesDistinct | project/src/components/CountdownPage.tsx:14-39 | the four titles are distinct |
| Countdown.NestedUnits | project/src/components/CountdownPage.tsx:50-53 | whole minutes, hours and days are whole numbers of the unit below |
| Countdown.Decompose | project/src/components/CountdownPage.tsx:50-53 | days are the difference over 86 400 000 rounded down; hours are below 24, minutes and seconds below 60; together they make up the whole seconds of the difference |
| Countdown.TimeLeftMap | project/src/components/CountdownPage.tsx:43-56 | the map built by visiting the dates in order, adding an entry for each date still ahead |
| Countdown.CalculateTimeLeft | project/src/components/CountdownPage.tsx:42-59 | the loop over the dates builds exactly the map that visiting them in order defines |
| Countdown.TimeLeftKeys | project/src/components/CountdownPage.tsx:46-56 | a title is a key exactly when some date with that title is still ahead of now |
| Countdown.TimeLeftEntry | project/src/components/CountdownPage.tsx:46-56 | with distinct titles, a date has an entry exactly when it is ahead of now, and the entry is its own decomposed difference |
| Countdown.EntryDisappearsOncePassed | project/src/components/CountdownPage.tsx:42-58 | an entry present on one tick is absent on any later tick at or after its date |
| Countdown.CardFor | project/src/components/CountdownPage.tsx:111-131 | a card shows the arrived text exactly when its title has no entry |
| Countdown.ArrivedOncePassed | project/src/components/CountdownPage.tsx:111-131 | a special date's card shows the arrived text exactly when the date is at or before now |
| Countdown.CountdownPage.constructor | project/src/components/CountdownPage.tsx:12-39 | the page starts with the four dates and an empty map |
| Countdown.CountdownPage.Tick | project/src/components/CountdownPage.tsx:61-62 | each tick replaces the whole map with a fresh one for the current time |
| App.RenderPage | project/src/App.tsx:38-53 | `home`, `countdown`, `gallery`, `voice` and `quiz` go to their pages, any other key to the home page, and never to the password page |
| App.HubKeysRouted | project/src/components/HomePage.tsx:25-31 | the hub's `letter` key falls back to home, and its other keys reach their pages |
| App.App.constructor | project/src/App.tsx:11-13 | the shell starts locked, on `home`, with no error |
| App.App.Rendered | project/src/App.tsx:55-61 | while locked, the password page shows whatever the current page is; once unlocked, the routed page shows |
| App.App.HandlePasswordSubmit | project/src/App.tsx:29-36 | exactly `Shiru1407` unlocks and clears the error; any other password sets the error and leaves the gate as it was; an unlocked gate never locks again |
| App.App.Navigate | project/src/App.tsx:12 | navigation sets the current page key to any string, and touches nothing else |
| App.GateScenario | project/src/App.tsx:29-61 | before the right password any page key shows the password page; after it the routed page shows, and a later wrong password does not lock it again |

## Left out

- Markup, styling, animations and the sparkle effects: presentation only,
  driven by timers and `Math.random`.
- `getUserMedia`, `MediaRecorder`, `HTMLAudioElement`, `Blob` and
  `URL.createObjectURL`: browser services, reduced to the inputs and the
  paused-flag map described above. Stopping the stream's tracks
  (`VoiceNotesPage.tsx:51`) releases the microphone and changes no page
  state, so it is not modelled.
- A failed `audio.play()` promise: playback is taken to start when asked.
- VoiceNotes.VoiceNotesPage.StartRecording: requires that no earlier
  recorder's stop event is still pending. A start landing between `stop()`
  and the old recorder's `stop` event would let that old `onstop` read the
  freshly emptied buffer; the model does not cover that interleaving.
- VoiceNotes.VoiceNotesPage.OnRecordButton: has the same requires as
  `StartRecording`, so it does not cover a click while an earlier stop event
  is pending either.
- VoiceNotes.VoiceNotesPage.StartRecording: is one atomic step, and the
  asynchronous wait for `getUserMedia` is not modelled. `isRecording` stays
  false until the grant resolves (`VoiceNotesPage.tsx:21`, `:42`), so a second
  click before then starts a second acquisition. When both resolve, the
  recorder reference keeps only the second recorder, and `stopRecording`
  never stops the first recorder or releases its microphone. The model
  cannot reach that state.
- VoiceNotes.VoiceNotesPage.OnRecorderStop: takes the recorder's `stop`
  event to follow `stopRecording` only (it requires the recorder to be
  stopping). The browser can also stop a recorder by itself, when the
  stream's tracks end because the microphone is unplugged or permission is
  revoked. The source's `onstop` then appends the note as usual, but only
  `stopRecording` clears `isRecording` (`VoiceNotesPage.tsx:52`), so the page
  is left with `isRecording` true and an inactive recorder. The page
  invariant `Valid` rules that state out, so the model does not reach it.
- VoiceNotes.VoiceNotesPage.TogglePlayback: requires the note's element to
  exist, because the source calls `play()` on it unguarded. The button is
  rendered only for existing notes.
- The audio elements' paused flags are keyed by note id.
  When ids repeat, only the first element with an id is reachable through
  `document.getElementById`, and later duplicates are not tracked.
- Note ids are taken to be non-empty (`Date.now().toString()` always is), so
  the truthiness test `if (currentlyPlaying)` is the same as "a note is set".
- Unmounting the voice-notes page while a note plays: React teardown.
- The react-dropzone `accept` filter, the unused Supabase client and the
  `isDragActive` highlight: library behaviour.
- `localStorage` persistence of the last page (`App.tsx:17-27`): I/O.
  Its effect on the router is covered because `App.App.Navigate` takes any
  key.
- React's batching of state updates: each handler is one sequential step
  on the state at the time it runs.
- Countdown.SpecialDates: the local-midnight timestamps use one UTC offset
  for all four dates, so a daylight-saving change between them is not
  modelled.
- Countdown.CalculateTimeLeft: reads the clock once per tick. The source
  reads it once per date, a few microseconds apart.
- Countdown.Decompose: models the float expressions as integer division
  and remainder. For a positive whole number of milliseconds below 2^53 they
  agree.
- Quiz.GetResultMessage: models the float percentage comparisons by
  cross-multiplication. For five questions the double results are exactly
  0, 20, 40, 60, 80 and 100, so the branches agree.
- The quiz messages and the date descriptions end in emoji that the source
  files hold mis-decoded, as UTF-8 read as Windows-1252. The model uses the
  code points those bytes decode to. The wrong-password message
  (`App.tsx:34`) is encoded correctly and is used as it stands.
- Quiz.MessageText: the "Amazing" message's emoji (`QuizPage.tsx:77`) lost
  its last byte in that mis-decoding, leaving only the prefix of a character
  in the range U+1F480 to U+1F4BF. The model uses U+1F49D, a guess: the lost
  byte 0x9D is one Windows-1252 leaves undefined, which would explain its
  loss, but the remaining bytes do not fix it.
