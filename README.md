# Google Meet recorder: the recording session and the popup's view of it

This project models the two pieces of logic of a browser extension that records Google Meet
calls, and proves their properties in Dafny.

* **The content script's recording session** (`src/content.js`). A module-level
  `recordingState` record holds an `isRecording` flag, handles that may be null (the
  `MediaRecorder`, the combined `MediaStream`, the `AudioContext`, its destination node and
  the on-page indicator) and the `recordedChunks` buffer. The message handlers
  (`startRecording`, `stopRecording`, `downloadRecording`) and the event handlers
  (`ondataavailable`, `onstop`, `beforeunload`) change it in place.
  `Content.RecordingState` is a class with exactly these fields. Each handler is a method,
  and each browser call is replaced by its outcome, passed in as a parameter:
  * the microphone and screen prompts' results (`Grant`);
  * the unguarded setup step that throws into the generic catch, if any (`SetupFault`);
  * the audio paths whose connection throws;
  * `MediaRecorder.isTypeSupported`;
  * the clock reading used for the file name.

  Every handler is proved to move an abstract state (`Session.Slots`: which handles are held,
  the flag, the chunks) exactly as a pure step function says. The session-level lemmas
  (`Session.*`) are about those step functions and about whole event sequences (`Session.Run`).
* **The popup** (`src/popup.js`). It keeps its own record
  `{isRecording, isPaused, recordedBlob, contentScriptReady}`. It sends each command with a
  bounded retry: 3 attempts for start, 2 for stop and download. The replies update its record,
  and `updateUI` decides which controls are visible. `Popup.PopupController` is a class with
  these fields plus the controls and the message element. The pure functions
  `AfterStart`/`AfterStop`/`Render`/`SendWithRetry` specify its handlers. A send's outcome is
  an oracle `deliver(k)` that gives the outcome of attempt k: no receiver, or a delivered
  reply.
* **The two together** (`Protocol`). Popup clicks, whose commands either reach the content
  script or exhaust their retries, interleave with page events. The popup's `isRecording`
  stays equal to the content script's. This holds when the page raises only its own events
  (data, the download after a stop, the recorder stopping, unload, status queries) and no error
  text from the browser itself contains "Already recording".

Files: `messages.dfy` (replies, the substring test, decimal digits), `media.dfy` (the browser
objects, reduced to the state the script reads), `session.dfy`, `content.dfy`, `popup.dfy`,
`protocol.dfy`.

## Model

| member | source | states |
|---|---|---|
| Messages.ContainsIff | src/popup.js:142 | `Contains` (the `includes` test) holds exactly when the pattern occurs at some index of the text |
| Messages.ContainsAfterTag | src/content.js:76 | putting a prefix in front of a text creates no new occurrence of a pattern whose first letter the prefix lacks, so a tagged denial contains "Already recording" only if the browser's message does |
| Messages.Decimal | src/content.js:324 | the timestamp is written as a non-empty string of decimal digits with no leading zero (a single "0" only for zero) |
| Messages.DecimalRoundTrip | src/content.js:324 | reading the digits of the file-name timestamp back gives the timestamp: nothing is lost |
| Media.OfKind | src/content.js:193-200 | `getVideoTracks`/`getAudioTracks` return tracks of the stream, all of the requested kind, and every such track of the stream |
| Media.AudioContext.Suspend | src/content.js:448-450 | suspending a running context suspends it; a closed context stays closed |
| Media.AudioContext.Close | src/content.js:279-281 | closing leaves the context closed |
| Media.AudioContext.CreateDestination | src/content.js:120 | a new destination whose output stream has exactly one fresh live audio track and no input connected yet |
| Media.AudioDestination.Connect | src/content.js:147-186 | connecting a source path adds exactly that source to the mix |
| Media.Track.Stop | src/content.js:275 | a stopped track is ended |
| Media.MediaStream.AddTrack | src/content.js:193-200 | the track is added at the end of the stream's track list, after the tracks already there |
| Media.Recorder.Start | src/content.js:238 | the recorder is recording |
| Media.Recorder.Stop | src/content.js:270 | the recorder is inactive |
| Media.Indicator.Remove | src/content.js:401-405 | the indicator is no longer attached to the page |
| Session.StartStep | src/content.js:47-260 | while recording: "Already recording" and no change. A denied prompt: a failure and no change. A throw after both grants: the browser's message; a throw at the context step changes nothing, one at the graph step holds the context and destination and leaves the stream as it was, one at the recorder step also holds the stream. Success: recording, with recorder, stream, context, destination and indicator held; nothing else changes |
| Session.StopStep | src/content.js:263-305 | succeeds exactly when recording with a recorder. Otherwise "Not recording" and no change. On success the flag and the indicator are cleared, the recorder handle stays, and nothing else changes |
| Session.DownloadStep | src/content.js:308-342 | succeeds exactly when the buffer is non-empty. Otherwise "No recording data" and no change. On success only the buffer changes, to empty |
| Session.DataStep | src/content.js:225-230 | the existing chunks stay in place and in order; a non-empty chunk is added after them and an empty one adds nothing; nothing else changes |
| Session.CleanupStep | src/content.js:427-466 | the stream, context, destination and recorder are released; the flag, the chunks and the indicator are kept |
| Session.UnloadStep | src/content.js:469-474 | the flag, the chunks and the indicator are kept. While recording with a recorder, the four handles are released. Otherwise nothing changes |
| Session.NextPreservesInv | src/content.js:238-245 | every handler keeps the session invariant: the indicator is on the page exactly while recording, and a recorder handle only exists with its stream, context and destination |
| Session.RunPreservesInv | src/content.js:6-14 | every sequence of commands and events keeps that invariant |
| Session.InitialSatisfiesInv | src/content.js:6-14 | the initial record satisfies the invariant |
| Session.NonEmptyData | src/content.js:225-230 | the chunks the data events of a sequence append are all non-empty |
| Session.SinceLastDownload | src/content.js:331 | the events after the last download contain no download |
| Session.ChunksSinceLastDownload | src/content.js:225-231 | the buffer holds exactly the non-empty chunks delivered since the last download, in arrival order, after the chunks held before when there was no download |
| Session.NextChunks | src/content.js:225-230 | only a data event with a non-empty chunk appends to the buffer, at its end, and only a download empties it |
| Session.NonEmptyDataSnoc | src/content.js:227-228 | one more event appends to the delivered chunks only the chunk it carries, if that chunk is non-empty |
| Session.NonEmptyDataEmpty | src/content.js:227 | no chunk is delivered exactly when no data event carries a non-empty chunk |
| Session.DownloadSucceedsIffNewData | src/content.js:310-315 | after a download, the next download succeeds exactly when a non-empty chunk arrived in between |
| Session.DownloadTwiceFails | src/content.js:310-331 | a download right after a download is refused with "No recording data" |
| Session.GuardsChangeNothing | src/content.js:49-52 | a start while recording, a stop while not recording or without a recorder, and a download with an empty buffer are refused with their texts and change nothing |
| Session.StartSucceedsOrChangesNoSessionFlag | src/content.js:47-260 | a start succeeds exactly when not recording, both prompts are granted and nothing throws; on success the session is recording with a recorder and an indicator; on any failure the flag, the recorder and the indicator are as before; the chunks never change |
| Session.CleanupIdempotent | src/content.js:427-466 | cleanup releases the stream, context, destination and recorder, keeps the flag, the chunks and the indicator, and running it twice equals running it once |
| Session.RecordStopDownload | src/content.js:225-331 | start, one non-empty chunk, stop and the recorder's stop event leave the initial state with just that chunk buffered; the download then succeeds once and a second one is refused |
| Session.WedgedSessionStaysWedged | src/content.js:232-236 | when the recorder's stop event runs while still recording, the flag stays set without a recorder; from then on every start is refused as already recording and every stop as not recording |
| Content.FirstSupportedIsUnique | src/content.js:409-424 | at most one type is the first supported entry of the preference list |
| Content.GenericOnlyPlatform | src/content.js:414-423 | a platform that supports only the generic container records with it |
| Content.GetSupportedMimeType | src/content.js:409-424 | the result is an entry of the preference list: the first one the platform supports, or the generic container when it supports none |
| Content.Concat | src/content.js:318 | the saved file is as long as all the chunks together |
| Content.ConcatAppend | src/content.js:318 | the saved bytes of two runs of chunks are the bytes of the first followed by those of the second |
| Content.FileName | src/content.js:324 | the file name is `meet-recording-`, the decimal timestamp without leading zeros and `.webm`, and the timestamp can be read back from it |
| Content.StopTracks | src/content.js:108 | every track of the microphone stream ends |
| Content.StopLiveTracks | src/content.js:432-440 | every track of the stream ends, and only tracks that had not ended are touched |
| Content.CombineStreams | src/content.js:190-200 | the new stream holds the screen's video tracks followed by the destination's audio tracks, in order |
| Content.ConnectSources | src/content.js:147-186 | the microphone is mixed exactly when its stream has an audio track and connecting does not throw; system audio exactly when the screen stream has an audio track and connecting does not throw |
| Content.RecordingState.constructor | src/content.js:6-14 | the record starts idle with every handle null and no chunks |
| Content.RecordingState.Ping | src/content.js:19-22 | a ping is answered with success |
| Content.RecordingState.GetRecordingStatus | src/content.js:24-27 | the status reply is the recording flag |
| Content.RecordingState.StartRecording | src/content.js:47-260 | moves the record as the start step says. While recording it replies "Already recording" and changes nothing. If the microphone is denied nothing changes. If the screen is denied every microphone track ends and the record is unchanged. A throw keeps the context, destination and stream stored before it. On success the recorder runs over the combined stream (screen video then mixed audio), with the first supported type, and a new indicator replaces any old one |
| Content.RecordingState.SetUpSession | src/content.js:113-254 | after both grants: builds, stores and starts exactly what the start step says, keeping what was stored before a throw |
| Content.RecordingState.StoreAudioGraph | src/content.js:115-122 | a fresh running context and its fresh destination are stored; nothing else changes |
| Content.RecordingState.StartRecorder | src/content.js:209-240 | a fresh recorder over the combined stream with the first supported type is started and stored, and the flag is set |
| Content.RecordingState.StopRecording | src/content.js:263-305 | when not recording or without a recorder it replies "Not recording" and nothing changes. Otherwise the flag is cleared, the recorder is stopped but its handle kept, every stream track ends, the context is closed and the indicator removed and nulled |
| Content.RecordingState.DownloadRecording | src/content.js:308-342 | with an empty buffer it replies "No recording data", saves nothing and changes nothing. Otherwise it saves a `video/webm` file of all chunks in order under the timestamped name and empties the buffer |
| Content.RecordingState.OnDataAvailable | src/content.js:225-230 | a non-empty chunk is appended at the end of the buffer; an empty one changes nothing |
| Content.RecordingState.CleanupRecording | src/content.js:427-466 | the stream, context, destination and recorder handles become null. Tracks that had not ended are stopped. A running context is suspended, and a context in any other state is left as it was. The flag, the buffer and the indicator are untouched |
| Content.RecordingState.OnBeforeUnload | src/content.js:469-474 | while recording with a recorder, the recorder is stopped and the cleanup runs: the four handles are nulled, every stream track ends, a running context is only suspended (not closed) and the indicator handle is kept; otherwise nothing changes: not the record, the recorder, the stored stream's live tracks or a stored running context |
| Content.RecordingState.ShowRecordingIndicator | src/content.js:345-398 | a new attached indicator replaces any previous one, which is removed |
| Content.RecordingState.HideRecordingIndicator | src/content.js:401-406 | the indicator is removed and its handle nulled |
| Popup.SendWithRetry | src/popup.js:112-126 | a send makes between 1 and `cap` attempts. All attempts before the last had no receiver. It answers with the reply of its last attempt when that one delivered. It is exhausted only after `cap` attempts with no receiver |
| Popup.SendAttemptsBounded | src/popup.js:117 | a command is sent at most `cap` times and at least once |
| Popup.SendTakesFirstReply | src/popup.js:113-126 | the reply of the earliest delivering attempt within the cap is the one handled |
| Popup.ThirdAttemptOnlyForStart | src/popup.js:178 | two attempts with no receiver and then a reply answer a start, while they exhaust a stop or a download |
| Popup.StartConfirmsRecording | src/popup.js:130-146 | an exhausted send never confirms a session. A success always does. A refusal does exactly when its error text contains "Already recording", and a refusal without an error text never does |
| Popup.UnknownErrorLacksMarker | src/popup.js:142 | the fallback text "Unknown error" does not contain "Already recording", so a refusal without an error text never confirms a session |
| Popup.ErrorText | src/popup.js:138 | the error shown is the reply's error, or "Unknown error" when it has none; never empty |
| Popup.AfterStart | src/popup.js:128-150 | a success sets recording and clears paused. A refusal whose text contains "Already recording" sets recording. Any other reply, and an exhausted send, change nothing |
| Popup.AfterStop | src/popup.js:186-196 | a successful stop clears recording and paused and marks a recording as saved; anything else changes nothing |
| Popup.TogglePause | src/popup.js:162-166 | only the paused flag changes, and it flips |
| Popup.TogglePauseTwice | src/popup.js:163 | pausing twice restores the record |
| Popup.ClearBlob | src/popup.js:292-295 | only the saved-recording mark changes, to absent |
| Popup.AfterStatus | src/popup.js:40-44 | a status reply that says recording sets recording; any other reply or none changes nothing |
| Popup.Render | src/popup.js:249-280 | while recording, start and download are hidden and pause, stop and status shown, and the pause text says resume exactly when paused. Otherwise start is shown, pause, stop and status hidden, download shown exactly when a recording is saved, and the pause text is kept |
| Popup.RenderOffersOneCommand | src/popup.js:252-279 | exactly one of start and stop is visible, pause goes with stop, and download is only visible beside start |
| Popup.UpdateUITwiceIsOnce | src/popup.js:249-280 | calling `updateUI` a second time on the same record leaves the controls the first call set, so its result shows the record |
| Popup.ResetDownloadKeepsControlsShown | src/popup.js:292-295 | hiding the download button directly gives what `updateUI` would show for the cleared record |
| Popup.ShowMessage | src/popup.js:283-290 | a non-empty message is written and shown; an empty one hides the element and keeps its text |
| Popup.StartMessage | src/popup.js:123-148 | every start outcome shows a message. An exhausted send shows "content script not loaded". A success shows "Recording started!". An already-recording refusal shows "Recording is active!". Any other failure shows the failure prefix followed by the error text |
| Popup.StopMessage | src/popup.js:181-195 | every stop outcome shows a message, the saved message exactly on a successful reply |
| Popup.DownloadMessage | src/popup.js:224-235 | every download outcome shows a message, the downloading message exactly on a successful reply |
| Popup.PopupController.constructor | src/popup.js:2-7 | the record starts with every field false |
| Popup.PopupController.UpdateUI | src/popup.js:249-280 | the controls become `Render` of the record and show it; the record and the message are unchanged |
| Popup.PopupController.ShowError | src/popup.js:283-290 | the message element becomes `ShowMessage` of the old one; nothing else changes |
| Popup.PopupController.HandleStartRecording | src/popup.js:112-154 | the record becomes `AfterStart` of the retried send's result. The start message is shown. The controls are `updateUI`'s rendering of the record (the pause label kept when not recording) when the start was confirmed and are untouched otherwise |
| Popup.PopupController.HandlePauseRecording | src/popup.js:162-166 | the paused flag flips, the controls are `updateUI`'s rendering of the record (the pause label kept when not recording) and the message is hidden |
| Popup.PopupController.HandleStopRecording | src/popup.js:174-200 | the record becomes `AfterStop` of the retried send's result, the stop message is shown, and the controls are `updateUI`'s rendering of the record (with the old pause label) after a successful stop and are untouched otherwise |
| Popup.PopupController.HandleDownload | src/popup.js:217-240 | the record and the controls are unchanged and the download message of the retried send is shown |
| Popup.PopupController.ResetDownloadSection | src/popup.js:292-295 | the saved-recording mark is cleared and the download button hidden; nothing else changes |
| Popup.PopupController.SyncRecordingStatus | src/popup.js:34-45 | the record becomes `AfterStatus` of the reply, and the controls are `updateUI`'s rendering of it when the reply said recording |
| Popup.PopupController.CheckContentScript | src/popup.js:59-67 | only the ready flag changes, to whether the ping was answered |
| Protocol.StartReplyAgrees | src/popup.js:130-150 | with no browser error text containing "Already recording", the popup takes a start reply as confirming a session exactly when the content script records afterwards |
| Protocol.PlainAfterTag | src/content.js:76 | a prefix without the marker's first letter cannot make a text read as "Already recording" |
| Protocol.PlainReplyIsPlain | src/popup.js:138 | a reply with no such error text, or with none at all, shows the popup no such text |
| Protocol.ActKeepsSync | src/popup.js:128-196 | one click (reached or exhausted) or page event (data, download, recorder stop, unload, status query) keeps the popup's recording flag equal to the content script's |
| Protocol.PerformKeepsSync | src/popup.js:128-196 | any sequence of such clicks and page events keeps the two flags equal |
| Protocol.ReopenedPopupCatchesUp | src/popup.js:27-47 | a freshly opened popup learns from the status reply whether the tab is recording |
| Protocol.MisleadingSetupErrorDesyncs | src/popup.js:142-146 | a setup error whose text contains "Already recording" makes the popup show a session the content script does not have |

## Left out

- Browser media calls (`getUserMedia`, `getDisplayMedia`, `AudioContext`, `MediaRecorder`, `MediaStream`) are represented by their outcomes: a granted stream or a denial message, the step that throws, the paths whose connection throws, and `isTypeSupported`. Capture, mixing and encoding themselves are foreign code.
- The gain and compressor settings and the recorder's bitrates are not modelled. They are floating-point parameters with no behaviour the script depends on.
- The indicator's HTML and CSS are not modelled; only whether an indicator element is attached and held is kept.
- Saving the file is not modelled: the Blob, the object URL and the anchor click are left out. `Content.RecordingState.DownloadRecording` returns the file (name, type, bytes) instead, and `Date` is a `now` parameter.
- Every `setTimeout` delay is left out, and time is not modelled. The automatic download 500 ms after a stop is the separate download command. The popup's reset 2 s after a successful download is `ResetDownloadSection`, called separately.
- `chrome.tabs.query`, the tab URL check (the "Open Google Meet" messages) and `lastError` are not modelled. The popup handlers start once a meeting tab has been found.
- The notifications to the background script (`recordingStarted`/`recordingStopped`) are not modelled. They are best-effort and do not change any state here. A synchronous throw of `chrome.runtime.sendMessage` is also not modelled.
- src/background.js is not part of this model. It only delegates to browser APIs.
- The message dispatcher's switch is not modelled as a function of its own; each action is its method. The reply to an unknown action is left out.
- Logging is left out. So is the ordering of asynchronous callbacks: each handler runs as one sequential method.
- `addTrack` appends; the browser's suppression of a track that is already in the stream is not modelled. The model assumes the browser hands over streams that list each track once; for a stream listing a track twice, the combined stream here would hold it twice.
- The catch paths of `stopRecording` and `downloadRecording` are not modelled. Only the unguarded steps of `startRecording` have a throw outcome. Apart from browser calls, those handlers contain nothing that throws.
- A missing reply object in the popup (`response` undefined) is treated as a failed reply without an error text. The popup's code handles both the same way ("Unknown error" for start, failure for stop and download).
- `Content.RecordingState.OnBeforeUnload`: while recording without a recorder, the source's `mediaRecorder.stop()` throws and the handler ends. The model returns without change, which is what that throw leaves.
- The popup page's initial markup is not part of this model. The controller's constructor takes the initial controls and message element as parameters.
- `Popup.StartMessage` does not state that the "content script not loaded" text differs from every text made of the failure prefix and an error text; the other start messages are each fixed for their outcome.
