/**
  * The content script's recording session (src/content.js): the module-level
  * `recordingState` record as a class whose fields are updated in place by the message
  * handlers and by the recorder's and the page's event handlers. Browser calls are replaced
  * by their outcomes, passed in as parameters: the permission prompts' results, the step of
  * the unguarded setup that throws (if any), the audio paths whose connection throws, and the
  * platform's `MediaRecorder.isTypeSupported`.
  */
module Content {
  import opened Messages
  import opened Media
  import opened Session

  /** The container/codec preference list of `getSupportedMimeType`, best first. */
  const MIME_PREFERENCES: seq<string> := [
    "video/webm;codecs=vp9,opus",
    "video/webm;codecs=vp8,opus",
    "video/webm;codecs=h264,opus",
    "video/webm"
  ]

  const FALLBACK_MIME := "video/webm"

  /** The type of the saved file, whatever the recorder encoded. */
  const DOWNLOAD_MIME := "video/webm"

  /** `mime` is what `getSupportedMimeType` must pick: the first preference the platform
      supports, or the generic container when it supports none. */
  ghost predicate FirstSupported(isTypeSupported: string -> bool, mime: string) {
    || (exists k :: 0 <= k < |MIME_PREFERENCES| && mime == MIME_PREFERENCES[k] && isTypeSupported(MIME_PREFERENCES[k]) &&
          forall j :: 0 <= j < k ==> !isTypeSupported(MIME_PREFERENCES[j]))
    || (mime == FALLBACK_MIME && forall j :: 0 <= j < |MIME_PREFERENCES| ==> !isTypeSupported(MIME_PREFERENCES[j]))
  }

  /** At most one type is the first supported one. */
  lemma FirstSupportedIsUnique(isTypeSupported: string -> bool, m1: string, m2: string)
    requires FirstSupported(isTypeSupported, m1) && FirstSupported(isTypeSupported, m2)
    ensures m1 == m2
  {
    if k1 :| 0 <= k1 < |MIME_PREFERENCES| && m1 == MIME_PREFERENCES[k1] && isTypeSupported(MIME_PREFERENCES[k1]) &&
             forall j :: 0 <= j < k1 ==> !isTypeSupported(MIME_PREFERENCES[j]) {
      if k2 :| 0 <= k2 < |MIME_PREFERENCES| && m2 == MIME_PREFERENCES[k2] && isTypeSupported(MIME_PREFERENCES[k2]) &&
               forall j :: 0 <= j < k2 ==> !isTypeSupported(MIME_PREFERENCES[j]) {
        assert !(k1 < k2) && !(k2 < k1);
      }
    }
  }

  /** A platform that supports only the generic container still gets a type: the generic one. */
  lemma GenericOnlyPlatform(isTypeSupported: string -> bool, mime: string)
    requires forall t :: isTypeSupported(t) <==> t == FALLBACK_MIME
    requires FirstSupported(isTypeSupported, mime)
    ensures mime == FALLBACK_MIME
  {
    assert MIME_PREFERENCES[3] == FALLBACK_MIME;
    assert !isTypeSupported(MIME_PREFERENCES[0]) && !isTypeSupported(MIME_PREFERENCES[1]) &&
           !isTypeSupported(MIME_PREFERENCES[2]);
    FirstSupportedIsUnique(isTypeSupported, mime, FALLBACK_MIME);
  }

  /** `getSupportedMimeType`: scans the preference list for the first supported type. */
  method GetSupportedMimeType(isTypeSupported: string -> bool) returns (mime: string)
    ensures mime in MIME_PREFERENCES
    ensures FirstSupported(isTypeSupported, mime)
  {
    var i := 0;
    while i < |MIME_PREFERENCES|
      invariant 0 <= i <= |MIME_PREFERENCES|
      invariant forall j :: 0 <= j < i ==> !isTypeSupported(MIME_PREFERENCES[j])
    {
      if isTypeSupported(MIME_PREFERENCES[i]) {
        return MIME_PREFERENCES[i];
      }
      i := i + 1;
    }
    return FALLBACK_MIME;
  }

  /** What the browser can do differently during `startRecording` once both permissions are
      granted. */
  datatype Platform = Platform(
    fault: SetupFault,                // the unguarded step that throws into the generic catch, if any
    failingInputs: set<AudioInput>,   // audio paths whose connection throws (caught and logged)
    isTypeSupported: string -> bool)  // MediaRecorder.isTypeSupported

  /** The file handed to the browser's save dialog by `downloadRecording`. */
  datatype SavedFile = SavedFile(name: string, mimeType: string, bytes: seq<bv8>)

  /** The bytes of the chunks, one after the other (the Blob built from them). */
  function Concat(chunks: seq<Blob>): (r: seq<bv8>)
    ensures |r| == TotalSize(chunks)
  {
    if chunks == [] then [] else chunks[0].bytes + Concat(chunks[1..])
  }

  function TotalSize(chunks: seq<Blob>): nat {
    if chunks == [] then 0 else chunks[0].Size() + TotalSize(chunks[1..])
  }

  /** Concatenation respects the order of the chunks: the file of a buffer that grew by one
      chunk is the file of the old buffer followed by that chunk's bytes. */
  lemma {:induction false} ConcatAppend(a: seq<Blob>, b: seq<Blob>)
    ensures Concat(a + b) == Concat(a) + Concat(b)
    decreases |a|
  {
    if a == [] {
      assert a + b == b;
    } else {
      assert (a + b)[1..] == a[1..] + b;
      ConcatAppend(a[1..], b);
    }
  }

  /** `meet-recording-<timestamp>.webm`, the timestamp in decimal milliseconds. */
  function FileName(now: nat): (name: string)
    ensures |name| > 20
    ensures StartsWith(name, "meet-recording-") && name[|name| - 5..] == ".webm"
    ensures forall i :: 15 <= i < |name| - 5 ==> '0' <= name[i] <= '9'
    ensures |name| > 21 ==> name[15] != '0'
    ensures ParseDecimal(name[15..|name| - 5]) == now
  {
    var digits := Decimal(now);
    var name := "meet-recording-" + digits + ".webm";
    assert name[15..|name| - 5] == digits;
    DecimalRoundTrip(now);
    name
  }

  /** `track.stop()` on each of `ts`. */
  method StopTracks(ts: seq<Track>)
    modifies set t | t in ts
    ensures forall t :: t in ts ==> t.ended
  {
    for i := 0 to |ts|
      invariant forall j :: 0 <= j < i ==> ts[j].ended
    {
      ts[i].Stop();
    }
  }

  /** The `forEach` of `cleanupRecording`: stops the tracks that have not ended, and only those. */
  method StopLiveTracks(ts: seq<Track>)
    modifies set t | t in ts && !t.ended
    ensures forall t :: t in ts ==> t.ended
  {
    for i := 0 to |ts|
      invariant forall j :: 0 <= j < i ==> ts[j].ended
      invariant forall t :: t in ts && old(t.ended) ==> t.ended
    {
      if !ts[i].ended {
        ts[i].Stop();
      }
    }
  }

  /** A new stream with the video tracks of `video` followed by the audio tracks of `audio`. */
  method CombineStreams(video: MediaStream, audio: MediaStream) returns (combined: MediaStream)
    ensures fresh(combined)
    ensures combined.tracks == VideoTracks(video.tracks) + AudioTracks(audio.tracks)
  {
    combined := new MediaStream();
    var videoTracks := VideoTracks(video.tracks);
    for i := 0 to |videoTracks|
      invariant combined.tracks == videoTracks[..i]
    {
      combined.AddTrack(videoTracks[i]);
    }
    var audioTracks := AudioTracks(audio.tracks);
    for i := 0 to |audioTracks|
      invariant combined.tracks == videoTracks + audioTracks[..i]
    {
      combined.AddTrack(audioTracks[i]);
    }
  }

  /** Connects the microphone path when the microphone stream has an audio track, and the
      system-audio path when the screen stream has one; a connection that throws is skipped. */
  method ConnectSources(destination: AudioDestination, micStream: MediaStream, screenStream: MediaStream,
                        failingInputs: set<AudioInput>)
    modifies destination
    ensures Microphone in destination.mixed <==>
              Microphone in old(destination.mixed) || (|AudioTracks(micStream.tracks)| > 0 && Microphone !in failingInputs)
    ensures SystemAudio in destination.mixed <==>
              SystemAudio in old(destination.mixed) || (|AudioTracks(screenStream.tracks)| > 0 && SystemAudio !in failingInputs)
  {
    if |AudioTracks(micStream.tracks)| > 0 && Microphone !in failingInputs {
      destination.Connect(Microphone);
    }
    if |AudioTracks(screenStream.tracks)| > 0 && SystemAudio !in failingInputs {
      destination.Connect(SystemAudio);
    }
  }

  /** The object `o` as a frame, nothing when it is null. */
  function Ref(o: object?): set<object> {
    if o == null then {} else {o}
  }

  /** The tracks of a granted stream. */
  function GrantedTracks(g: Grant<MediaStream>): set<Track>
    reads if g.Granted? then {g.value} else {}
  {
    if g.Granted? then set t | t in g.value.tracks else {}
  }

  class RecordingState {
    var isRecording: bool
    var mediaRecorder: Recorder?
    var recordedChunks: seq<Blob>
    var stream: MediaStream?
    var audioContext: AudioContext?
    var audioDestination: AudioDestination?
    var indicatorElement: Indicator?

    /** Which handles are held, whether recording, and the chunks. */
    ghost function Abstract(): Slots
      reads this
    {
      Slots(isRecording, mediaRecorder != null, recordedChunks, stream != null,
                    audioContext != null, audioDestination != null, indicatorElement != null)
    }

    /** The tracks of the held stream. */
    ghost function StreamTracks(): set<Track>
      reads this, stream
    {
      if stream == null then {} else set t | t in stream.tracks
    }

    /** The tracks of the held stream that have not ended: the only ones cleanup stops. */
    ghost function LiveStreamTracks(): set<Track>
      reads this, stream, StreamTracks()
    {
      if stream == null then {} else set t | t in stream.tracks && !t.ended
    }

    /** The held audio context if it is running: the only case in which cleanup suspends it. */
    ghost function RunningContext(): set<AudioContext>
      reads this, audioContext
    {
      if audioContext != null && audioContext.state == Running then {audioContext} else {}
    }

    /** The record as the content script initialises it. */
    constructor ()
      ensures Abstract() == INITIAL
    {
      isRecording := false;
      mediaRecorder := null;
      recordedChunks := [];
      stream := null;
      audioContext := null;
      audioDestination := null;
      indicatorElement := null;
    }

    /** The `ping` message: the script is loaded. */
    method Ping() returns (reply: Response)
      ensures reply.success
    {
      reply := OK;
    }

    /** The `getRecordingStatus` message: reports the flag and changes nothing. */
    method GetRecordingStatus() returns (recording: bool)
      ensures recording <==> Abstract().isRecording
    {
      recording := isRecording;
    }

    /** `startRecording`. */
    method StartRecording(mic: Grant<MediaStream>, screen: Grant<MediaStream>, env: Platform)
      returns (reply: Response)
      modifies this, indicatorElement, GrantedTracks(mic)
      ensures var o := StartStep(old(Abstract()), mic, screen, env.fault);
              Abstract() == o.next && reply == o.reply
      // guards: nothing of the record changes
      ensures old(isRecording) || mic.Denied? ==> unchanged(this) && unchanged(Ref(old(indicatorElement))) && unchanged(GrantedTracks(mic))
      ensures !old(isRecording) && mic.Granted? && screen.Denied? ==>
                unchanged(this) && unchanged(Ref(old(indicatorElement))) && forall t :: t in mic.value.tracks ==> t.ended
      // the generic catch: what was stored before the throw stays stored
      ensures !old(isRecording) && mic.Granted? && screen.Granted? && env.fault.Throws? ==>
                && isRecording == old(isRecording) && mediaRecorder == old(mediaRecorder)
                && recordedChunks == old(recordedChunks) && indicatorElement == old(indicatorElement)
                && unchanged(Ref(old(indicatorElement))) && unchanged(GrantedTracks(mic))
                && (env.fault.step == CreateContext ==> unchanged(this))
                && (env.fault.step != CreateContext ==>
                      audioContext != null && fresh(audioContext) && audioDestination != null && fresh(audioDestination))
                && (env.fault.step == BuildGraph ==> stream == old(stream))
                && (env.fault.step == CreateRecorder ==> stream != null && fresh(stream))
      // success
      ensures !old(isRecording) && mic.Granted? && screen.Granted? && env.fault == NoFault ==>
                && isRecording && recordedChunks == old(recordedChunks)
                && mediaRecorder != null && fresh(mediaRecorder) && mediaRecorder.state == Recording
                && stream != null && fresh(stream) && mediaRecorder.stream == stream
                && FirstSupported(env.isTypeSupported, mediaRecorder.mimeType)
                && audioContext != null && fresh(audioContext) && audioContext.state == Running
                && audioDestination != null && fresh(audioDestination) && audioDestination.context == audioContext
                && |AudioTracks(audioDestination.stream.tracks)| == 1
                && stream.tracks == VideoTracks(screen.value.tracks) + AudioTracks(audioDestination.stream.tracks)
                && (Microphone in audioDestination.mixed <==>
                      |AudioTracks(mic.value.tracks)| > 0 && Microphone !in env.failingInputs)
                && (SystemAudio in audioDestination.mixed <==>
                      |AudioTracks(screen.value.tracks)| > 0 && SystemAudio !in env.failingInputs)
                && indicatorElement != null && fresh(indicatorElement) && indicatorElement.attached
                && (old(indicatorElement) != null ==> !old(indicatorElement).attached)
                && unchanged(GrantedTracks(mic))
    {
      if isRecording {
        return Failure(ALREADY_RECORDING);
      }
      if mic.Denied? {
        return Failure(MIC_DENIED + mic.message);
      }
      var micStream := mic.value;
      if screen.Denied? {
        StopTracks(micStream.tracks);
        return Failure(SCREEN_DENIED + screen.message);
      }
      reply := SetUpSession(micStream, screen.value, env);
    }

    /** The part of `startRecording` after both permissions are granted: builds the mixing
        graph and the combined stream, starts the recorder and shows the indicator, storing
        each handle as it goes; a throw ends it with the handles stored so far. */
    method SetUpSession(micStream: MediaStream, screenStream: MediaStream, env: Platform)
      returns (reply: Response)
      requires !isRecording
      modifies this, indicatorElement
      ensures var o := StartStep(old(Abstract()), Granted(micStream), Granted(screenStream), env.fault);
              Abstract() == o.next && reply == o.reply
      ensures env.fault.Throws? ==>
                && isRecording == old(isRecording) && mediaRecorder == old(mediaRecorder)
                && recordedChunks == old(recordedChunks) && indicatorElement == old(indicatorElement)
                && unchanged(Ref(old(indicatorElement)))
                && (env.fault.step == CreateContext ==> unchanged(this))
                && (env.fault.step != CreateContext ==>
                      audioContext != null && fresh(audioContext) && audioDestination != null && fresh(audioDestination))
                && (env.fault.step == BuildGraph ==> stream == old(stream))
                && (env.fault.step == CreateRecorder ==> stream != null && fresh(stream))
      ensures env.fault == NoFault ==>
                && isRecording && recordedChunks == old(recordedChunks)
                && mediaRecorder != null && fresh(mediaRecorder) && mediaRecorder.state == Recording
                && stream != null && fresh(stream) && mediaRecorder.stream == stream
                && FirstSupported(env.isTypeSupported, mediaRecorder.mimeType)
                && audioContext != null && fresh(audioContext) && audioContext.state == Running
                && audioDestination != null && fresh(audioDestination) && audioDestination.context == audioContext
                && |AudioTracks(audioDestination.stream.tracks)| == 1
                && stream.tracks == VideoTracks(screenStream.tracks) + AudioTracks(audioDestination.stream.tracks)
                && (Microphone in audioDestination.mixed <==>
                      |AudioTracks(micStream.tracks)| > 0 && Microphone !in env.failingInputs)
                && (SystemAudio in audioDestination.mixed <==>
                      |AudioTracks(screenStream.tracks)| > 0 && SystemAudio !in env.failingInputs)
                && indicatorElement != null && fresh(indicatorElement) && indicatorElement.attached
                && (old(indicatorElement) != null ==> !old(indicatorElement).attached)
    {
      if env.fault.Throws? && env.fault.step == CreateContext {
        return Failure(env.fault.message);
      }
      var destination := StoreAudioGraph();
      if env.fault.Throws? && env.fault.step == BuildGraph {
        return Failure(env.fault.message);
      }
      ConnectSources(destination, micStream, screenStream, env.failingInputs);
      var combined := CombineStreams(screenStream, destination.stream);
      stream := combined;
      if env.fault.Throws? {
        return Failure(env.fault.message);
      }
      StartRecorder(combined, env.isTypeSupported);
      ShowRecordingIndicator();
      reply := OK;
    }

    /** Creates the audio context and its destination and stores both. */
    method StoreAudioGraph() returns (destination: AudioDestination)
      modifies this
      ensures audioContext != null && fresh(audioContext) && audioContext.state == Running
      ensures audioDestination == destination && fresh(destination) && destination.context == audioContext
      ensures destination.mixed == {} && fresh(destination.stream)
      ensures |AudioTracks(destination.stream.tracks)| == 1
      ensures isRecording == old(isRecording) && mediaRecorder == old(mediaRecorder) &&
              recordedChunks == old(recordedChunks) && stream == old(stream) &&
              indicatorElement == old(indicatorElement)
    {
      var context := new AudioContext();
      destination := context.CreateDestination();
      assert AudioTracks(destination.stream.tracks) == destination.stream.tracks;
      audioContext := context;
      audioDestination := destination;
    }

    /** Creates the recorder over the combined stream with the preferred supported type,
        starts it and stores it. */
    method StartRecorder(combined: MediaStream, isTypeSupported: string -> bool)
      modifies this
      ensures mediaRecorder != null && fresh(mediaRecorder) && mediaRecorder.state == Recording
      ensures mediaRecorder.stream == combined && FirstSupported(isTypeSupported, mediaRecorder.mimeType)
      ensures isRecording
      ensures recordedChunks == old(recordedChunks) && stream == old(stream) && audioContext == old(audioContext) &&
              audioDestination == old(audioDestination) && indicatorElement == old(indicatorElement)
    {
      var mime := GetSupportedMimeType(isTypeSupported);
      var recorder := new Recorder(combined, mime);
      recorder.Start();
      mediaRecorder := recorder;
      isRecording := true;
    }

    /** `stopRecording`: stops the recorder but keeps its handle, ends every track of the
        combined stream, closes the audio context and removes the indicator. */
    method StopRecording() returns (reply: Response)
      modifies this, mediaRecorder, audioContext, indicatorElement, StreamTracks()
      ensures var o := StopStep(old(Abstract())); Abstract() == o.next && reply == o.reply
      ensures !reply.success ==>
                unchanged(this) && unchanged(Ref(old(mediaRecorder)), Ref(old(audioContext)), Ref(old(indicatorElement))) &&
                unchanged(old(StreamTracks()))
      ensures reply.success ==>
                && !isRecording && recordedChunks == old(recordedChunks)
                && mediaRecorder == old(mediaRecorder) && mediaRecorder != null && mediaRecorder.state == Inactive
                && stream == old(stream) && (stream != null ==> forall t :: t in stream.tracks ==> t.ended)
                && audioContext == old(audioContext) && (audioContext != null ==> audioContext.state == Closed)
                && audioDestination == old(audioDestination)
                && indicatorElement == null && (old(indicatorElement) != null ==> !old(indicatorElement).attached)
    {
      if !isRecording || mediaRecorder == null {
        return Failure(NOT_RECORDING);
      }
      mediaRecorder.Stop();
      isRecording := false;
      if stream != null {
        StopTracks(stream.tracks);
      }
      if audioContext != null {
        audioContext.Close();
      }
      HideRecordingIndicator();
      reply := OK;
    }

    /** `downloadRecording`: saves the chunks as one file named after `now` (the clock's
        milliseconds) and empties the buffer. */
    method DownloadRecording(now: nat) returns (reply: Response, saved: Option<SavedFile>)
      modifies this
      ensures var o := DownloadStep(old(Abstract())); Abstract() == o.next && reply == o.reply
      ensures saved.Some? <==> reply.success
      ensures saved.Some? ==> saved.value == SavedFile(FileName(now), DOWNLOAD_MIME, Concat(old(recordedChunks)))
      ensures mediaRecorder == old(mediaRecorder) && stream == old(stream) && audioContext == old(audioContext) &&
              audioDestination == old(audioDestination) && indicatorElement == old(indicatorElement)
    {
      if |recordedChunks| == 0 {
        return Failure(NO_RECORDING_DATA), None;
      }
      saved := Some(SavedFile(FileName(now), DOWNLOAD_MIME, Concat(recordedChunks)));
      recordedChunks := [];
      reply := OK;
    }

    /** The recorder's `ondataavailable` handler. */
    method OnDataAvailable(chunk: Blob)
      modifies this
      ensures Abstract() == DataStep(old(Abstract()), chunk)
      ensures mediaRecorder == old(mediaRecorder) && stream == old(stream) && audioContext == old(audioContext) &&
              audioDestination == old(audioDestination) && indicatorElement == old(indicatorElement)
    {
      if chunk.Size() > 0 {
        recordedChunks := recordedChunks + [chunk];
      }
    }

    /** `cleanupRecording`, also the whole of the recorder's `onstop` handler: ends the live
        tracks of the stream, suspends a running audio context, and drops the stream, context,
        destination and recorder handles. */
    method CleanupRecording()
      modifies this, LiveStreamTracks(), RunningContext()
      ensures Abstract() == CleanupStep(old(Abstract()))
      ensures stream == null && audioContext == null && audioDestination == null && mediaRecorder == null
      ensures indicatorElement == old(indicatorElement)
      ensures old(stream) != null ==> forall t :: t in old(stream.tracks) ==> t.ended
      ensures old(audioContext) != null ==>
                old(audioContext).state == if old(audioContext.state) == Running then Suspended else old(audioContext.state)
    {
      if stream != null {
        StopLiveTracks(stream.tracks);
        stream := null;
      }
      if audioContext != null {
        if audioContext.state == Running {
          audioContext.Suspend();
        }
        audioContext := null;
      }
      if audioDestination != null {
        audioDestination := null;
      }
      mediaRecorder := null;
    }

    /** The `beforeunload` handler. */
    method OnBeforeUnload()
      modifies this, mediaRecorder, LiveStreamTracks(), RunningContext()
      ensures Abstract() == UnloadStep(old(Abstract()))
      ensures !old(isRecording && mediaRecorder != null) ==>
                unchanged(this) && unchanged(Ref(old(mediaRecorder))) &&
                unchanged(old(LiveStreamTracks())) && unchanged(old(RunningContext()))
      ensures old(isRecording && mediaRecorder != null) ==>
                && old(mediaRecorder).state == Inactive
                && stream == null && audioContext == null && audioDestination == null && mediaRecorder == null
                && (old(stream) != null ==> forall t :: t in old(stream.tracks) ==> t.ended)
                && indicatorElement == old(indicatorElement)
                && (old(audioContext) != null ==>
                      old(audioContext).state == if old(audioContext.state) == Running then Suspended else old(audioContext.state))
    {
      if isRecording {
        if mediaRecorder == null {
          // stopping the null recorder throws a TypeError, which ends the handler
          return;
        }
        mediaRecorder.Stop();
        CleanupRecording();
      }
    }

    /** `showRecordingIndicator`: replaces any indicator on the page by a new one. */
    method ShowRecordingIndicator()
      modifies this, indicatorElement
      ensures indicatorElement != null && fresh(indicatorElement) && indicatorElement.attached
      ensures old(indicatorElement) != null ==> !old(indicatorElement).attached
      ensures isRecording == old(isRecording) && mediaRecorder == old(mediaRecorder) &&
              recordedChunks == old(recordedChunks) && stream == old(stream) &&
              audioContext == old(audioContext) && audioDestination == old(audioDestination)
    {
      if indicatorElement != null {
        indicatorElement.Remove();
      }
      var indicator := new Indicator();
      indicatorElement := indicator;
    }

    /** `hideRecordingIndicator`. */
    method HideRecordingIndicator()
      modifies this, indicatorElement
      ensures indicatorElement == null
      ensures old(indicatorElement) != null ==> !old(indicatorElement).attached
      ensures isRecording == old(isRecording) && mediaRecorder == old(mediaRecorder) &&
              recordedChunks == old(recordedChunks) && stream == old(stream) &&
              audioContext == old(audioContext) && audioDestination == old(audioDestination)
    {
      if indicatorElement != null {
        indicatorElement.Remove();
        indicatorElement := null;
      }
    }
  }
}
