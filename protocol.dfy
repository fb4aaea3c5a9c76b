/**
  * The popup and the content script together: each click in the popup sends its command
  * (with retries) to the content script of the meeting tab, whose reply updates the popup's
  * record, while the page raises its own events (recorded data, the download after a stop,
  * the recorder stopping, unload, status queries). The lemmas show when the popup's `isRecording` agrees with the
  * content script's.
  */
module Protocol {
  import opened Messages
  import opened Session
  import opened Popup

  /** A popup control, carrying what the page's browser does for a start. */
  datatype Command =
    | StartCommand(mic: Grant<()>, screen: Grant<()>, fault: SetupFault)
    | StopCommand
    | DownloadCommand
    | PauseCommand
    | ResetDownloadCommand

  /** A click whose command, when sent, reaches the content script (`reached`) or exhausts
      its attempts; or an event raised on the page itself. */
  datatype Action = Click(cmd: Command, reached: bool) | Page(e: Event)

  datatype System = System(content: Slots, popup: PopupState)

  /** The content script's side of a command that reached it. */
  function Serve(content: Slots, cmd: Command): Outcome
    requires cmd.StartCommand? || cmd.StopCommand? || cmd.DownloadCommand?
  {
    match cmd
    case StartCommand(mic, screen, fault) => StartStep(content, mic, screen, fault)
    case StopCommand => StopStep(content)
    case DownloadCommand => DownloadStep(content)
  }

  /** The sent commands' result as the popup sees it. */
  function Sent(content: Slots, cmd: Command, reached: bool): SendResult
    requires cmd.StartCommand? || cmd.StopCommand? || cmd.DownloadCommand?
  {
    if reached then Answered(Serve(content, cmd).reply) else Exhausted
  }

  function Act(sys: System, a: Action): System {
    match a
    case Page(e) => System(Next(sys.content, e), sys.popup)
    case Click(PauseCommand, _) => System(sys.content, TogglePause(sys.popup))
    case Click(ResetDownloadCommand, _) => System(sys.content, ClearBlob(sys.popup))
    case Click(cmd, reached) =>
      var content := if reached then Serve(sys.content, cmd).next else sys.content;
      var result := Sent(sys.content, cmd, reached);
      var popup :=
        if cmd.StartCommand? then AfterStart(sys.popup, result)
        else if cmd.StopCommand? then AfterStop(sys.popup, result)
        else sys.popup;
      System(content, popup)
  }

  function Perform(sys: System, actions: seq<Action>): System
    decreases |actions|
  {
    if actions == [] then sys else Act(Perform(sys, actions[..|actions| - 1]), actions[|actions| - 1])
  }

  predicate InSync(sys: System) {
    sys.popup.isRecording == sys.content.isRecording
  }

  /** An error text from the browser that does not read as "a session is already running". */
  predicate Plain(message: string) {
    !Contains(message, ALREADY_RECORDING_MARKER)
  }

  /** What the popup's text test relies on: no denial or setup error mentions an already
      running session, and the page raises only its own events (starts and stops come from
      clicks; the download that follows a stop can come from the page itself). */
  predicate Honest(a: Action) {
    match a
    case Page(e) => e.Data? || e.Download? || e.RecorderStopped? || e.Unload? || e.StatusQuery?
    case Click(StartCommand(mic, screen, fault), _) =>
      (mic.Denied? ==> Plain(mic.message)) && (screen.Denied? ==> Plain(screen.message)) &&
      (fault.Throws? ==> Plain(fault.message))
    case Click(_, _) => true
  }

  /** The content script's start reply confirms a running session to the popup exactly when
      the content script is recording afterwards, provided no browser error text mentions an
      already running session. */
  lemma StartReplyAgrees(content: Slots, mic: Grant<()>, screen: Grant<()>, fault: SetupFault)
    requires mic.Denied? ==> Plain(mic.message)
    requires screen.Denied? ==> Plain(screen.message)
    requires fault.Throws? ==> Plain(fault.message)
    ensures StartConfirmsRecording(Answered(StartStep(content, mic, screen, fault).reply)) <==>
            StartStep(content, mic, screen, fault).next.isRecording
  {
    var out := StartStep(content, mic, screen, fault);
    if content.isRecording {
      assert out.reply == Failure(ALREADY_RECORDING) && out.next.isRecording;
      StartsWithContains(ErrorText(out.reply), ALREADY_RECORDING_MARKER);
    } else if mic.Denied? {
      assert out.reply == Failure(MIC_DENIED + mic.message) && !out.next.isRecording;
      PlainAfterTag(MIC_DENIED, mic.message);
      PlainReplyIsPlain(out.reply);
    } else if screen.Denied? {
      assert out.reply == Failure(SCREEN_DENIED + screen.message) && !out.next.isRecording;
      PlainAfterTag(SCREEN_DENIED, screen.message);
      PlainReplyIsPlain(out.reply);
    } else if fault.Throws? {
      assert out.reply == Failure(fault.message) && !out.next.isRecording;
      PlainReplyIsPlain(out.reply);
    } else {
      assert out.reply == OK && out.next.isRecording;
    }
  }

  /** A tag without the marker's first letter in front of a plain text keeps it plain. */
  lemma PlainAfterTag(tag: string, message: string)
    requires ALREADY_RECORDING_MARKER[0] !in tag && Plain(message)
    ensures Plain(tag + message)
  {
    ContainsAfterTag(tag, message, ALREADY_RECORDING_MARKER);
  }

  /** A reply with a plain (or absent) error shows the popup a plain error text. */
  lemma PlainReplyIsPlain(reply: Response)
    requires reply.error == "" || Plain(reply.error)
    ensures Plain(ErrorText(reply))
  {
    if reply.error == "" {
      PlainAfterTag(UNKNOWN_ERROR, "");
      assert UNKNOWN_ERROR + "" == UNKNOWN_ERROR;
    }
  }

  /** One honest action keeps the two records in agreement about `isRecording`. */
  lemma ActKeepsSync(sys: System, a: Action)
    requires InSync(sys) && Honest(a)
    ensures InSync(Act(sys, a))
  {
    match a {
      case Click(StartCommand(mic, screen, fault), reached) =>
        if reached {
          StartReplyAgrees(sys.content, mic, screen, fault);
        }
      case _ =>
    }
  }

  /** Any sequence of honest actions keeps the popup's `isRecording` equal to the content
      script's, whatever the delivery of each command. */
  lemma {:induction false} PerformKeepsSync(sys: System, actions: seq<Action>)
    requires InSync(sys)
    requires forall i :: 0 <= i < |actions| ==> Honest(actions[i])
    ensures InSync(Perform(sys, actions))
    decreases |actions|
  {
    if actions != [] {
      var prefix := actions[..|actions| - 1];
      PerformKeepsSync(sys, prefix);
      ActKeepsSync(Perform(sys, prefix), actions[|actions| - 1]);
    }
  }

  /** A popup opened on a tab that is recording learns it from the status query. */
  lemma ReopenedPopupCatchesUp(content: Slots)
    ensures AfterStatus(INITIAL_POPUP, Some(content.isRecording)).isRecording == content.isRecording
  {
  }

  /** The popup's test is on the text alone: a setup error whose text mentions an already
      running session makes the popup show a session the content script does not have. */
  lemma MisleadingSetupErrorDesyncs(content: Slots, message: string)
    requires !content.isRecording
    requires Contains(message, ALREADY_RECORDING_MARKER)
    ensures var out := StartStep(content, Granted(()), Granted(()), Throws(CreateRecorder, message));
            !out.next.isRecording && StartConfirmsRecording(Answered(out.reply))
  {
  }
}
