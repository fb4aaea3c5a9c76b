/**
  * The popup of the extension: its own small recording record, the bounded retry with
  * which it sends each command to the content script, how each reply updates the record,
  * and which controls `updateUI` shows for a record.
  *
  * Sending is reduced to its outcome: for attempt k (counting from 1) the tab either has no
  * receiver (the send fails with `lastError`) or delivers a reply. Delays between attempts
  * are not modelled; only the attempts are counted.
  */
module Popup {
  import opened Messages

  /** What one `chrome.tabs.sendMessage` attempt produces. */
  datatype Delivery = NoReceiver | Delivered(response: Response)

  /** How a retried send ends: every attempt failed, or one reply arrived. */
  datatype SendResult = Exhausted | Answered(response: Response)

  /** The end of a retried send and the number of attempts it made. */
  datatype Attempted = Attempted(result: SendResult, attempts: nat)

  const START_ATTEMPTS: nat := 3
  const STOP_ATTEMPTS: nat := 2
  const DOWNLOAD_ATTEMPTS: nat := 2

  function Max(a: int, b: int): int {
    if a < b then b else a
  }

  /** `sendMessageWithRetry(tabId, message, attempt)`: sends once; on "no receiver" sends
      again while `attempt < cap`, otherwise gives up. `deliver(k)` is the outcome of
      attempt k. */
  function SendWithRetry(deliver: nat -> Delivery, attempt: nat, cap: nat): (r: Attempted)
    requires attempt >= 1
    ensures attempt <= r.attempts <= Max(attempt, cap)
    ensures forall k: nat :: attempt <= k < r.attempts ==> deliver(k) == NoReceiver
    ensures r.result.Answered? <==> deliver(r.attempts).Delivered?
    ensures r.result.Answered? ==> deliver(r.attempts) == Delivered(r.result.response)
    ensures r.result.Exhausted? ==> r.attempts == Max(attempt, cap)
    decreases cap - attempt
  {
    match deliver(attempt)
    case Delivered(response) => Attempted(Answered(response), attempt)
    case NoReceiver =>
      if attempt < cap then SendWithRetry(deliver, attempt + 1, cap)
      else Attempted(Exhausted, attempt)
  }

  /** A send that begins at attempt 1 makes at most `cap` attempts (and at least one). */
  lemma SendAttemptsBounded(deliver: nat -> Delivery, cap: nat)
    requires cap >= 1
    ensures 1 <= SendWithRetry(deliver, 1, cap).attempts <= cap
  {
  }

  /** The first reply is taken: if some attempt within the cap delivers, the send answers
      with the earliest delivered reply; it is exhausted exactly when no attempt up to the
      cap delivers. */
  lemma SendTakesFirstReply(deliver: nat -> Delivery, cap: nat, k: nat)
    requires 1 <= k <= cap && deliver(k).Delivered?
    requires forall j: nat :: 1 <= j < k ==> deliver(j) == NoReceiver
    ensures SendWithRetry(deliver, 1, cap) == Attempted(Answered(deliver(k).response), k)
  {
  }

  /** The start command is retried longer than stop and download: two failed attempts then a
      reply answer a start, while the same channel exhausts a stop or a download. */
  lemma ThirdAttemptOnlyForStart(deliver: nat -> Delivery, reply: Response)
    requires deliver(1) == NoReceiver && deliver(2) == NoReceiver && deliver(3) == Delivered(reply)
    ensures SendWithRetry(deliver, 1, START_ATTEMPTS) == Attempted(Answered(reply), 3)
    ensures SendWithRetry(deliver, 1, STOP_ATTEMPTS) == Attempted(Exhausted, 2)
    ensures SendWithRetry(deliver, 1, DOWNLOAD_ATTEMPTS) == Attempted(Exhausted, 2)
  {
  }

  /** The popup's `recordingState`; `recordedBlob` is its truthiness (it only ever holds
      `true` or `null`). */
  datatype PopupState = PopupState(isRecording: bool, isPaused: bool, recordedBlob: bool,
                                   contentScriptReady: bool)

  const INITIAL_POPUP := PopupState(false, false, false, false)

  /** The content script's text for a start that is refused because a session is running. */
  const ALREADY_RECORDING_MARKER := "Already recording"
  const UNKNOWN_ERROR := "Unknown error"

  /** `response?.error || 'Unknown error'` */
  function ErrorText(response: Response): (t: string)
    ensures t != ""
    ensures response.error != "" ==> t == response.error
    ensures response.error == "" ==> t == UNKNOWN_ERROR
  {
    if response.error != "" then response.error else UNKNOWN_ERROR
  }

  /** Whether a start reply makes the popup consider the session running: a success, or a
      refusal that says a session is already running. */
  function StartConfirmsRecording(r: SendResult): (b: bool)
    ensures r.Exhausted? ==> !b
    ensures r.Answered? && r.response.success ==> b
    ensures r.Answered? && !r.response.success ==> (b <==> Contains(ErrorText(r.response), ALREADY_RECORDING_MARKER))
    ensures r.Answered? && !r.response.success && r.response.error == "" ==> !b
  {
    UnknownErrorLacksMarker();
    r.Answered? && (r.response.success || Contains(ErrorText(r.response), ALREADY_RECORDING_MARKER))
  }

  /** The fallback error text does not read as "a session is already running". */
  lemma UnknownErrorLacksMarker()
    ensures !Contains(UNKNOWN_ERROR, ALREADY_RECORDING_MARKER)
  {
    ContainsAfterTag(UNKNOWN_ERROR, "", ALREADY_RECORDING_MARKER);
    assert UNKNOWN_ERROR + "" == UNKNOWN_ERROR;
  }

  /** The record after the start command ends with `r`. */
  function AfterStart(s: PopupState, r: SendResult): (t: PopupState)
    ensures t.isRecording <==> s.isRecording || StartConfirmsRecording(r)
    ensures t.isPaused <==> s.isPaused && !(r.Answered? && r.response.success)
    ensures t.recordedBlob == s.recordedBlob && t.contentScriptReady == s.contentScriptReady
    ensures !StartConfirmsRecording(r) ==> t == s
  {
    if !StartConfirmsRecording(r) then s
    else if r.response.success then s.(isRecording := true, isPaused := false)
    else s.(isRecording := true)
  }

  /** The record after the stop command ends with `r`. */
  function AfterStop(s: PopupState, r: SendResult): (t: PopupState)
    ensures r.Answered? && r.response.success ==>
              !t.isRecording && !t.isPaused && t.recordedBlob && t.contentScriptReady == s.contentScriptReady
    ensures !(r.Answered? && r.response.success) ==> t == s
  {
    if r.Answered? && r.response.success then s.(isRecording := false, isPaused := false, recordedBlob := true)
    else s
  }

  /** `handlePauseRecording` on the record. */
  function TogglePause(s: PopupState): (t: PopupState)
    ensures t.isPaused != s.isPaused
    ensures t.(isPaused := s.isPaused) == s
  {
    s.(isPaused := !s.isPaused)
  }

  /** Pausing twice restores the record. */
  lemma TogglePauseTwice(s: PopupState)
    ensures TogglePause(TogglePause(s)) == s
  {
  }

  /** `resetDownloadSection` on the record. */
  function ClearBlob(s: PopupState): (t: PopupState)
    ensures !t.recordedBlob && t.(recordedBlob := s.recordedBlob) == s
  {
    s.(recordedBlob := false)
  }

  /** A reply to `getRecordingStatus` (None when the tab did not answer; Some of its
      `isRecording` otherwise) on the record: a running session is adopted, nothing else. */
  function AfterStatus(s: PopupState, reply: Option<bool>): (t: PopupState)
    ensures reply == Some(true) ==> t == s.(isRecording := true)
    ensures reply != Some(true) ==> t == s
  {
    if reply == Some(true) then s.(isRecording := true) else s
  }

  const PAUSE_LABEL := "⏸️ PAUSE"
  const RESUME_LABEL := "▶️ RESUME"

  /** Which of the popup's elements carry the `hidden` class, and the pause button's text. */
  datatype Controls = Controls(startHidden: bool, pauseHidden: bool, stopHidden: bool,
                               downloadHidden: bool, statusHidden: bool, pauseLabel: string)

  /** The visibility decision of `updateUI` for record `s`; the pause button keeps
      `pauseLabel` when the record is not recording. */
  function Render(s: PopupState, pauseLabel: string): (c: Controls)
    ensures c.startHidden <==> s.isRecording
    ensures c.pauseHidden == c.stopHidden == c.statusHidden == !s.isRecording
    ensures !c.downloadHidden <==> !s.isRecording && s.recordedBlob
    ensures s.isRecording ==> (c.pauseLabel == RESUME_LABEL <==> s.isPaused)
    ensures !s.isRecording ==> c.pauseLabel == pauseLabel
  {
    if s.isRecording then
      Controls(true, false, false, true, false, if s.isPaused then RESUME_LABEL else PAUSE_LABEL)
    else
      Controls(false, true, true, !s.recordedBlob, true, pauseLabel)
  }

  /** Exactly one of start and stop is offered, pause goes with stop, and download is only
      offered beside start. */
  lemma RenderOffersOneCommand(s: PopupState, pauseLabel: string)
    ensures Render(s, pauseLabel).startHidden != Render(s, pauseLabel).stopHidden
    ensures Render(s, pauseLabel).pauseHidden == Render(s, pauseLabel).stopHidden
    ensures !Render(s, pauseLabel).downloadHidden ==> !Render(s, pauseLabel).startHidden
  {
  }

  /** Controls that show a record. */
  predicate Shows(c: Controls, s: PopupState) {
    c == Render(s, c.pauseLabel)
  }

  /** `updateUI` twice on the same record gives the controls of one call: the second call
      keeps the label the first one set, so whatever `updateUI` leaves shows the record. */
  lemma UpdateUITwiceIsOnce(s: PopupState, pauseLabel: string)
    ensures Render(s, Render(s, pauseLabel).pauseLabel) == Render(s, pauseLabel)
    ensures Shows(Render(s, pauseLabel), s)
  {
  }

  /** `resetDownloadSection` hides the download button itself instead of calling `updateUI`;
      on controls that showed the record, that agrees with what `updateUI` would show. */
  lemma ResetDownloadKeepsControlsShown(c: Controls, s: PopupState)
    requires Shows(c, s)
    ensures Shows(c.(downloadHidden := true), ClearBlob(s))
  {
  }

  /** The message element: its text and whether it is hidden. */
  datatype Banner = Banner(text: string, hidden: bool)

  /** `showError(message)`: a non-empty message is written and shown; an empty one hides the
      element and leaves its text. */
  function ShowMessage(b: Banner, message: string): (r: Banner)
    ensures message != "" ==> r == Banner(message, false)
    ensures message == "" ==> r == b.(hidden := true)
  {
    if message != "" then Banner(message, false) else b.(hidden := true)
  }

  const NOT_LOADED := "⚠️ Content script not loaded. Refresh page and try again."
  const STARTED := "🎥 Recording started!"
  const ACTIVE := "🎥 Recording is active!"
  const START_FAILED := "❌ Failed to start: "
  const STOP_UNREACHABLE := "⚠️ Error stopping recording"
  const STOPPED := "✅ Recording saved! Click SAVE to download"
  const STOP_FAILED := "❌ Failed to stop recording"
  const DOWNLOAD_FAILED := "❌ Download failed"
  const DOWNLOADING := "✅ File downloading..."

  /** The message shown when the start command ends with `r`. */
  function StartMessage(r: SendResult): (m: string)
    ensures m != ""
    ensures r.Exhausted? ==> m == NOT_LOADED
    ensures r.Answered? && r.response.success ==> m == STARTED
    ensures r.Answered? && !r.response.success && StartConfirmsRecording(r) ==> m == ACTIVE
    ensures r.Answered? && !StartConfirmsRecording(r) ==>
              StartsWith(m, START_FAILED) && m[|START_FAILED|..] == ErrorText(r.response)
  {
    match r
    case Exhausted => NOT_LOADED
    case Answered(response) =>
      if response.success then STARTED
      else if Contains(ErrorText(response), ALREADY_RECORDING_MARKER) then ACTIVE
      else START_FAILED + ErrorText(response)
  }

  /** The message shown when the stop command ends with `r`. */
  function StopMessage(r: SendResult): (m: string)
    ensures m != ""
    ensures m == STOPPED <==> r.Answered? && r.response.success
  {
    match r
    case Exhausted => STOP_UNREACHABLE
    case Answered(response) => if response.success then STOPPED else STOP_FAILED
  }

  /** The message shown when the download command ends with `r`. */
  function DownloadMessage(r: SendResult): (m: string)
    ensures m != ""
    ensures m == DOWNLOADING <==> r.Answered? && r.response.success
  {
    match r
    case Exhausted => DOWNLOAD_FAILED
    case Answered(response) => if response.success then DOWNLOADING else DOWNLOAD_FAILED
  }

  /** The popup page: its record and the elements `updateUI` and `showError` write. */
  class PopupController {
    var isRecording: bool
    var isPaused: bool
    var recordedBlob: bool
    var contentScriptReady: bool
    var controls: Controls
    var banner: Banner

    function State(): PopupState
      reads this
    {
      PopupState(isRecording, isPaused, recordedBlob, contentScriptReady)
    }

    /** The elements start as the popup's page declares them; that page is not part of
        this model. */
    constructor (initialControls: Controls, initialBanner: Banner)
      ensures State() == INITIAL_POPUP && controls == initialControls && banner == initialBanner
    {
      isRecording := false;
      isPaused := false;
      recordedBlob := false;
      contentScriptReady := false;
      controls := initialControls;
      banner := initialBanner;
    }

    /** `updateUI` */
    method UpdateUI()
      modifies this
      ensures State() == old(State()) && banner == old(banner)
      ensures controls == Render(State(), old(controls.pauseLabel))
      ensures Shows(controls, State())
    {
      if isRecording {
        var tag := if isPaused then RESUME_LABEL else PAUSE_LABEL;
        controls := Controls(true, false, false, true, false, tag);
      } else {
        controls := controls.(startHidden := false, pauseHidden := true, stopHidden := true,
                              statusHidden := true, downloadHidden := !recordedBlob);
      }
    }

    /** `showError` */
    method ShowError(message: string)
      modifies this
      ensures State() == old(State()) && controls == old(controls)
      ensures banner == ShowMessage(old(banner), message)
    {
      if message != "" {
        banner := Banner(message, false);
      } else {
        banner := banner.(hidden := true);
      }
    }

    /** `handleStartRecording` once the tab is a meeting page. */
    method HandleStartRecording(deliver: nat -> Delivery)
      modifies this
      ensures State() == AfterStart(old(State()), SendWithRetry(deliver, 1, START_ATTEMPTS).result)
      ensures banner == Banner(StartMessage(SendWithRetry(deliver, 1, START_ATTEMPTS).result), false)
      ensures StartConfirmsRecording(SendWithRetry(deliver, 1, START_ATTEMPTS).result) ==>
                controls == Render(State(), old(controls.pauseLabel)) && Shows(controls, State())
      ensures !StartConfirmsRecording(SendWithRetry(deliver, 1, START_ATTEMPTS).result) ==> controls == old(controls)
    {
      var sent := SendWithRetry(deliver, 1, START_ATTEMPTS);
      match sent.result {
        case Exhausted =>
          ShowError(NOT_LOADED);
        case Answered(response) =>
          if response.success {
            isRecording := true;
            isPaused := false;
            UpdateUI();
            ShowError(STARTED);
          } else {
            var errorMsg := ErrorText(response);
            if Contains(errorMsg, ALREADY_RECORDING_MARKER) {
              isRecording := true;
              UpdateUI();
              ShowError(ACTIVE);
            } else {
              ShowError(START_FAILED + errorMsg);
            }
          }
      }
    }

    /** `handlePauseRecording` */
    method HandlePauseRecording()
      modifies this
      ensures State() == TogglePause(old(State()))
      ensures controls == Render(State(), old(controls.pauseLabel)) && Shows(controls, State())
      ensures banner == old(banner).(hidden := true)
    {
      isPaused := !isPaused;
      UpdateUI();
      ShowError("");
    }

    /** `handleStopRecording` */
    method HandleStopRecording(deliver: nat -> Delivery)
      modifies this
      ensures State() == AfterStop(old(State()), SendWithRetry(deliver, 1, STOP_ATTEMPTS).result)
      ensures banner == Banner(StopMessage(SendWithRetry(deliver, 1, STOP_ATTEMPTS).result), false)
      ensures banner.text == STOPPED ==>
                controls == Render(State(), old(controls.pauseLabel)) && Shows(controls, State())
      ensures banner.text != STOPPED ==> controls == old(controls)
    {
      var sent := SendWithRetry(deliver, 1, STOP_ATTEMPTS);
      match sent.result {
        case Exhausted =>
          ShowError(STOP_UNREACHABLE);
        case Answered(response) =>
          if response.success {
            isRecording := false;
            isPaused := false;
            recordedBlob := true;
            UpdateUI();
            ShowError(STOPPED);
          } else {
            ShowError(STOP_FAILED);
          }
      }
    }

    /** `handleDownload` once a tab was found; the delayed `resetDownloadSection` after a
        success is the separate call below. */
    method HandleDownload(deliver: nat -> Delivery)
      modifies this
      ensures State() == old(State()) && controls == old(controls)
      ensures banner == Banner(DownloadMessage(SendWithRetry(deliver, 1, DOWNLOAD_ATTEMPTS).result), false)
    {
      var sent := SendWithRetry(deliver, 1, DOWNLOAD_ATTEMPTS);
      if sent.result.Answered? && sent.result.response.success {
        ShowError(DOWNLOADING);
      } else {
        ShowError(DOWNLOAD_FAILED);
      }
    }

    /** `resetDownloadSection` */
    method ResetDownloadSection()
      modifies this
      ensures State() == ClearBlob(old(State())) && banner == old(banner)
      ensures controls == old(controls).(downloadHidden := true)
    {
      recordedBlob := false;
      controls := controls.(downloadHidden := true);
    }

    /** `resetRecordingState` once the tab is a meeting page: `reply` is None when the
        status query failed, otherwise the reported `isRecording`. */
    method SyncRecordingStatus(reply: Option<bool>)
      modifies this
      ensures State() == AfterStatus(old(State()), reply) && banner == old(banner)
      ensures reply == Some(true) ==>
                controls == Render(State(), old(controls.pauseLabel)) && Shows(controls, State())
      ensures reply != Some(true) ==> controls == old(controls)
    {
      if reply == Some(true) {
        isRecording := true;
        UpdateUI();
      }
    }

    /** `checkContentScriptStatus` once the tab is a meeting page: whether the ping was
        answered. */
    method CheckContentScript(answered: bool)
      modifies this
      ensures State() == old(State()).(contentScriptReady := answered)
      ensures controls == old(controls) && banner == old(banner)
    {
      contentScriptReady := answered;
    }
  }
}
