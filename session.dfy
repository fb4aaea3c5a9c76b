/**
  * The recording session of the content script seen from above: which of the handles of its
  * `recordingState` record are occupied, whether it is recording, and the recorded chunks.
  * Each handler of the content script is a step on this abstract state; `Run` replays a
  * sequence of events. The class `Content.RecordingState` is proved to move its abstract state
  * exactly as these steps say, so the lemmas here are about the content script itself.
  */
module Session {
  import opened Messages

  /** One recorded segment (`event.data`); its `size` is the number of its bytes. */
  datatype Blob = Blob(bytes: seq<bv8>) {
    function Size(): nat {
      |bytes|
    }
  }

  /** The outcome of a permission prompt: the stream the browser hands over, or the
      message of the error it raised. */
  datatype Grant<+T> = Granted(value: T) | Denied(message: string)

  /** The unguarded steps of `startRecording` after both permissions are granted, each of
      which can throw into the generic catch. */
  datatype SetupStep =
    | CreateContext   // creating the AudioContext and its destination, before any field is set
    | BuildGraph      // building the mixing graph and the combined stream, after the context and destination are stored
    | CreateRecorder  // creating and starting the MediaRecorder, after the combined stream is stored

  datatype SetupFault = NoFault | Throws(step: SetupStep, message: string)

  /** The abstract `recordingState`: a flag per handle that says whether it is non-null. */
  datatype Slots = Slots(
    isRecording: bool,
    hasRecorder: bool,
    chunks: seq<Blob>,
    hasStream: bool,
    hasContext: bool,
    hasDestination: bool,
    hasIndicator: bool)

  const INITIAL: Slots := Slots(false, false, [], false, false, false, false)

  const ALREADY_RECORDING := "Already recording"
  const NOT_RECORDING := "Not recording"
  const NO_RECORDING_DATA := "No recording data"
  const MIC_DENIED := "Microphone denied: "
  const SCREEN_DENIED := "Screen capture denied: "

  /** The state after a handler and the reply it sends. */
  datatype Outcome = Outcome(next: Slots, reply: Response)

  /** `startRecording`. */
  function StartStep<T>(s: Slots, mic: Grant<T>, screen: Grant<T>, fault: SetupFault): (o: Outcome)
    ensures s.isRecording ==> o == Outcome(s, Failure(ALREADY_RECORDING))
    ensures !s.isRecording && (mic.Denied? || screen.Denied?) ==> o.next == s && !o.reply.success
    ensures !s.isRecording && mic.Granted? && screen.Granted? && fault.Throws? ==>
              && o.reply == Failure(fault.message)
              && o.next.(hasContext := s.hasContext, hasDestination := s.hasDestination, hasStream := s.hasStream) == s
              && (fault.step != CreateContext ==> o.next.hasContext && o.next.hasDestination)
              && (fault.step == CreateContext ==> o.next == s)
              && (fault.step == BuildGraph ==> o.next.hasStream == s.hasStream)
              && (fault.step == CreateRecorder ==> o.next.hasStream)
    ensures o.reply.success ==>
              o.next == s.(isRecording := true, hasRecorder := true, hasStream := true, hasContext := true,
                           hasDestination := true, hasIndicator := true)
  {
    if s.isRecording then Outcome(s, Failure(ALREADY_RECORDING))
    else if mic.Denied? then Outcome(s, Failure(MIC_DENIED + mic.message))
    else if screen.Denied? then Outcome(s, Failure(SCREEN_DENIED + screen.message))
    else match fault
      case Throws(CreateContext, m) => Outcome(s, Failure(m))
      case Throws(BuildGraph, m) =>
        Outcome(s.(hasContext := true, hasDestination := true), Failure(m))
      case Throws(CreateRecorder, m) =>
        Outcome(s.(hasContext := true, hasDestination := true, hasStream := true), Failure(m))
      case NoFault =>
        Outcome(s.(isRecording := true, hasRecorder := true, hasStream := true, hasContext := true,
                   hasDestination := true, hasIndicator := true), OK)
  }

  /** `stopRecording`: the recorder handle is kept until the recorder's stop event. */
  function StopStep(s: Slots): (o: Outcome)
    ensures o.reply.success <==> s.isRecording && s.hasRecorder
    ensures !o.reply.success ==> o == Outcome(s, Failure(NOT_RECORDING))
    ensures o.reply.success ==>
              !o.next.isRecording && !o.next.hasIndicator && o.next.hasRecorder &&
              o.next.(isRecording := s.isRecording, hasIndicator := s.hasIndicator) == s
  {
    if !s.isRecording || !s.hasRecorder then Outcome(s, Failure(NOT_RECORDING))
    else Outcome(s.(isRecording := false, hasIndicator := false), OK)
  }

  /** `downloadRecording`. */
  function DownloadStep(s: Slots): (o: Outcome)
    ensures o.reply.success <==> s.chunks != []
    ensures !o.reply.success ==> o == Outcome(s, Failure(NO_RECORDING_DATA))
    ensures o.reply.success ==> o.next.chunks == [] && o.next.(chunks := s.chunks) == s
  {
    if |s.chunks| == 0 then Outcome(s, Failure(NO_RECORDING_DATA))
    else Outcome(s.(chunks := []), OK)
  }

  /** The recorder's `ondataavailable` handler. */
  function DataStep(s: Slots, chunk: Blob): (t: Slots)
    ensures t.(chunks := s.chunks) == s
    ensures |t.chunks| == |s.chunks| + (if chunk.Size() > 0 then 1 else 0)
    ensures t.chunks[..|s.chunks|] == s.chunks
    ensures chunk.Size() > 0 ==> t.chunks[|s.chunks|] == chunk
  {
    if chunk.Size() > 0 then s.(chunks := s.chunks + [chunk]) else s
  }

  /** `cleanupRecording`, run by the recorder's `onstop` handler. */
  function CleanupStep(s: Slots): (t: Slots)
    ensures !t.hasStream && !t.hasContext && !t.hasDestination && !t.hasRecorder
    ensures t.isRecording == s.isRecording && t.chunks == s.chunks && t.hasIndicator == s.hasIndicator
  {
    s.(hasStream := false, hasContext := false, hasDestination := false, hasRecorder := false)
  }

  /** The `beforeunload` handler: when recording it stops the recorder and cleans up; with a
      null recorder handle the call `mediaRecorder.stop()` throws and nothing happens. */
  function UnloadStep(s: Slots): (t: Slots)
    ensures t.isRecording == s.isRecording && t.chunks == s.chunks && t.hasIndicator == s.hasIndicator
    ensures s.isRecording && s.hasRecorder ==> !t.hasStream && !t.hasContext && !t.hasDestination && !t.hasRecorder
    ensures !(s.isRecording && s.hasRecorder) ==> t == s
  {
    if s.isRecording && s.hasRecorder then CleanupStep(s) else s
  }

  /** Everything that can happen to the session: a command from the popup, an event of the
      recorder, or the page unloading. */
  datatype Event =
    | Start(mic: Grant<()>, screen: Grant<()>, fault: SetupFault)
    | Stop
    | Download
    | Data(chunk: Blob)
    | RecorderStopped
    | Unload
    | StatusQuery

  function Next(s: Slots, e: Event): Slots {
    match e
    case Start(mic, screen, fault) => StartStep(s, mic, screen, fault).next
    case Stop => StopStep(s).next
    case Download => DownloadStep(s).next
    case Data(chunk) => DataStep(s, chunk)
    case RecorderStopped => CleanupStep(s)
    case Unload => UnloadStep(s)
    case StatusQuery => s
  }

  /** The state after the events of `evs`, in order. */
  function Run(s: Slots, evs: seq<Event>): Slots
    decreases |evs|
  {
    if evs == [] then s else Next(Run(s, evs[..|evs| - 1]), evs[|evs| - 1])
  }

  // ---------------------------------------------------------------------------------------
  // Invariants

  /** The indicator is on the page exactly while recording, and a recorder handle is only
      held together with the stream, context and destination it was built from. */
  predicate Inv(s: Slots) {
    && (s.isRecording <==> s.hasIndicator)
    && (s.hasRecorder ==> s.hasStream && s.hasContext && s.hasDestination)
  }

  lemma NextPreservesInv(s: Slots, e: Event)
    requires Inv(s)
    ensures Inv(Next(s, e))
  {
  }

  /** Every reachable session satisfies Inv. */
  lemma {:induction false} RunPreservesInv(s: Slots, evs: seq<Event>)
    requires Inv(s)
    ensures Inv(Run(s, evs))
    decreases |evs|
  {
    if evs != [] {
      RunPreservesInv(s, evs[..|evs| - 1]);
      NextPreservesInv(Run(s, evs[..|evs| - 1]), evs[|evs| - 1]);
    }
  }

  lemma InitialSatisfiesInv()
    ensures Inv(INITIAL)
  {
  }

  // ---------------------------------------------------------------------------------------
  // The chunk buffer

  /** The chunk a data event appends, if any. */
  function Appended(e: Event): seq<Blob> {
    if e.Data? && e.chunk.Size() > 0 then [e.chunk] else []
  }

  /** The non-empty chunks delivered by the data events of evs, in order. */
  function NonEmptyData(evs: seq<Event>): (r: seq<Blob>)
    ensures forall c :: c in r ==> c.Size() > 0
    decreases |evs|
  {
    if evs == [] then [] else NonEmptyData(evs[..|evs| - 1]) + Appended(evs[|evs| - 1])
  }

  /** The events that follow the last download command (all of evs when there is none). */
  function SinceLastDownload(evs: seq<Event>): (r: seq<Event>)
    ensures Download !in r
    decreases |evs|
  {
    if evs == [] then []
    else if evs[|evs| - 1] == Download then []
    else SinceLastDownload(evs[..|evs| - 1]) + [evs[|evs| - 1]]
  }

  /** The buffer holds exactly the non-empty chunks delivered since the last download
      command, in delivery order, after whatever it held before if there was none:
      starting, stopping and cleaning up never touch it, and a download always leaves it empty. */
  lemma {:induction false} ChunksSinceLastDownload(s: Slots, evs: seq<Event>)
    ensures Run(s, evs).chunks ==
            if Download in evs then NonEmptyData(SinceLastDownload(evs))
            else s.chunks + NonEmptyData(evs)
    decreases |evs|
  {
    if evs != [] {
      var init, e := evs[..|evs| - 1], evs[|evs| - 1];
      assert evs == init + [e];
      ChunksSinceLastDownload(s, init);
      var before := Run(s, init);
      assert Run(s, evs) == Next(before, e);
      NextChunks(before, e);
      if e != Download {
        assert SinceLastDownload(evs) == SinceLastDownload(init) + [e];
        assert Download in evs <==> Download in init;
        NonEmptyDataSnoc(SinceLastDownload(init), e);
        NonEmptyDataSnoc(init, e);
        if Download !in init {
          assert s.chunks + NonEmptyData(init) + Appended(e) == s.chunks + (NonEmptyData(init) + Appended(e));
        }
      }
    }
  }

  /** Only data events add to the buffer and only downloads empty it. */
  lemma NextChunks(s: Slots, e: Event)
    ensures Next(s, e).chunks == if e == Download then [] else s.chunks + Appended(e)
  {
  }

  lemma NonEmptyDataSnoc(evs: seq<Event>, e: Event)
    ensures NonEmptyData(evs + [e]) == NonEmptyData(evs) + Appended(e)
  {
    assert (evs + [e])[..|evs + [e]| - 1] == evs;
  }

  /** NonEmptyData is empty exactly when no data event carries a non-empty chunk. */
  lemma {:induction false} NonEmptyDataEmpty(evs: seq<Event>)
    ensures NonEmptyData(evs) == [] <==> forall i :: 0 <= i < |evs| ==> Appended(evs[i]) == []
    decreases |evs|
  {
    if evs != [] {
      var init := evs[..|evs| - 1];
      NonEmptyDataEmpty(init);
      assert forall i :: 0 <= i < |init| ==> init[i] == evs[i];
    }
  }

  /** After a download command, the next download succeeds exactly when a non-empty chunk
      has been delivered since; so one accumulated set of chunks is downloaded once. */
  lemma DownloadSucceedsIffNewData(s: Slots, evs: seq<Event>)
    requires Download in evs
    ensures DownloadStep(Run(s, evs)).reply.success <==>
            exists i :: 0 <= i < |SinceLastDownload(evs)| && Appended(SinceLastDownload(evs)[i]) != []
  {
    ChunksSinceLastDownload(s, evs);
    NonEmptyDataEmpty(SinceLastDownload(evs));
  }

  /** Two downloads in a row: the second finds no data. */
  lemma DownloadTwiceFails(s: Slots)
    ensures DownloadStep(DownloadStep(s).next).reply == Failure(NO_RECORDING_DATA)
  {
  }

  // ---------------------------------------------------------------------------------------
  // Guards

  /** A start while recording, a stop while not recording and a download with nothing
      recorded are refused and change nothing. */
  lemma GuardsChangeNothing<T>(s: Slots, mic: Grant<T>, screen: Grant<T>, fault: SetupFault)
    ensures s.isRecording ==> StartStep(s, mic, screen, fault) == Outcome(s, Failure(ALREADY_RECORDING))
    ensures !s.isRecording || !s.hasRecorder ==> StopStep(s) == Outcome(s, Failure(NOT_RECORDING))
    ensures s.chunks == [] ==> DownloadStep(s) == Outcome(s, Failure(NO_RECORDING_DATA))
  {
  }

  /** A start either succeeds and leaves a live session, or fails and leaves the session not
      recording, with no new recorder, no indicator change and the chunks untouched. */
  lemma StartSucceedsOrChangesNoSessionFlag<T>(s: Slots, mic: Grant<T>, screen: Grant<T>, fault: SetupFault)
    ensures var o := StartStep(s, mic, screen, fault);
            o.reply.success <==> !s.isRecording && mic.Granted? && screen.Granted? && fault == NoFault
    ensures var o := StartStep(s, mic, screen, fault);
            o.next.chunks == s.chunks &&
            if o.reply.success then o.next.isRecording && o.next.hasRecorder && o.next.hasIndicator
            else o.next.isRecording == s.isRecording && o.next.hasRecorder == s.hasRecorder &&
                 o.next.hasIndicator == s.hasIndicator
  {
  }

  /** Cleanup is idempotent and releases every handle it owns. */
  lemma CleanupIdempotent(s: Slots)
    ensures CleanupStep(CleanupStep(s)) == CleanupStep(s)
    ensures var c := CleanupStep(s); !c.hasStream && !c.hasContext && !c.hasDestination && !c.hasRecorder
    ensures var c := CleanupStep(s); c.isRecording == s.isRecording && c.chunks == s.chunks && c.hasIndicator == s.hasIndicator
  {
  }

  // ---------------------------------------------------------------------------------------
  // A whole recording

  /** From an idle session, starting with both permissions, receiving one non-empty chunk,
      stopping and letting the recorder's stop event run leaves an idle session with every
      handle released and exactly that chunk buffered; the download then succeeds once. */
  lemma RecordStopDownload(s: Slots, chunk: Blob)
    requires Inv(s) && !s.isRecording && s.chunks == []
    requires chunk.Size() > 0
    ensures var evs := [Start(Granted(()), Granted(()), NoFault), Data(chunk), Stop, RecorderStopped];
            var t := Run(s, evs);
            && t == INITIAL.(chunks := [chunk])
            && DownloadStep(t) == Outcome(INITIAL, OK)
            && DownloadStep(DownloadStep(t).next).reply == Failure(NO_RECORDING_DATA)
  {
    var evs := [Start(Granted(()), Granted(()), NoFault), Data(chunk), Stop, RecorderStopped];
    var s1 := StartStep(s, Granted(()), Granted(()), NoFault).next;
    var s2 := DataStep(s1, chunk);
    var s3 := StopStep(s2).next;
    assert Run(s, evs[..1]) == s1 by {
      assert evs[..1][..0] == [];
    }
    assert Run(s, evs[..2]) == s2 by {
      assert evs[..2][..1] == evs[..1];
    }
    assert Run(s, evs[..3]) == s3 by {
      assert evs[..3][..2] == evs[..2];
    }
    assert Run(s, evs) == CleanupStep(s3) by {
      assert evs[..3] == evs[..|evs| - 1];
    }
  }

  // ---------------------------------------------------------------------------------------
  // A wedged session

  /** If the recorder's stop event runs while the session is still recording (the recorder
      stopped on its own), the cleanup nulls the recorder handle but leaves `isRecording` set.
      From then on every start is refused as already recording, every stop as not recording,
      and no event clears the flag: the session stays wedged until the page is reloaded. */
  lemma {:induction false} WedgedSessionStaysWedged(s: Slots, evs: seq<Event>)
    requires s.isRecording
    ensures var w := Run(CleanupStep(s), evs);
            && w.isRecording && !w.hasRecorder
            && StartStep(w, Granted(()), Granted(()), NoFault).reply == Failure(ALREADY_RECORDING)
            && StopStep(w).reply == Failure(NOT_RECORDING)
    decreases |evs|
  {
    if evs != [] {
      WedgedSessionStaysWedged(s, evs[..|evs| - 1]);
    }
  }
}
