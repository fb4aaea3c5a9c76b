/**
  * The browser media objects the content script holds, reduced to the state it reads and
  * changes: whether a track has ended, which tracks a stream carries, the state of an audio
  * context, which inputs reach the mixing destination, whether a recorder is running and
  * whether the on-page indicator is attached. The browser's own behaviour (capture, encoding,
  * audio processing) is not modelled.
  */
module Media {

  datatype TrackKind = Audio | Video

  /** A MediaStreamTrack; `ended` is `readyState === 'ended'`. */
  class Track {
    const kind: TrackKind
    var ended: bool

    constructor (kind: TrackKind)
      ensures this.kind == kind && !ended
    {
      this.kind := kind;
      ended := false;
    }

    /** `track.stop()`: the track ends; stopping an ended track changes nothing. */
    method Stop()
      modifies this
      ensures ended
    {
      ended := true;
    }
  }

  /** The tracks of `ts` of the given kind, in their order: `getAudioTracks()` / `getVideoTracks()`. */
  function OfKind(ts: seq<Track>, kind: TrackKind): (r: seq<Track>)
    ensures |r| <= |ts|
    ensures forall t :: t in r ==> t in ts && t.kind == kind
    ensures forall i :: 0 <= i < |ts| && ts[i].kind == kind ==> ts[i] in r
  {
    if ts == [] then []
    else (if ts[0].kind == kind then [ts[0]] else []) + OfKind(ts[1..], kind)
  }

  function AudioTracks(ts: seq<Track>): seq<Track> {
    OfKind(ts, Audio)
  }

  function VideoTracks(ts: seq<Track>): seq<Track> {
    OfKind(ts, Video)
  }

  /** A MediaStream: an ordered list of tracks. */
  class MediaStream {
    var tracks: seq<Track>

    constructor ()
      ensures tracks == []
    {
      tracks := [];
    }

    constructor WithTracks(tracks: seq<Track>)
      ensures this.tracks == tracks
    {
      this.tracks := tracks;
    }

    /** `stream.addTrack(t)` */
    method AddTrack(t: Track)
      modifies this
      ensures tracks == old(tracks) + [t]
    {
      tracks := tracks + [t];
    }
  }

  datatype ContextState = Running | Suspended | Closed

  /** The two sources the content script can route into its mixing destination. */
  datatype AudioInput = Microphone | SystemAudio

  /** An AudioContext; only its `state` matters to the content script. */
  class AudioContext {
    var state: ContextState

    constructor ()
      ensures state == Running
    {
      state := Running;
    }

    /** `suspend()`: a closed context stays closed (the call rejects). */
    method Suspend()
      modifies this
      ensures state == if old(state) == Closed then Closed else Suspended
    {
      if state != Closed {
        state := Suspended;
      }
    }

    /** `close()`: closing an already closed context rejects and leaves it closed. */
    method Close()
      modifies this
      ensures state == Closed
    {
      state := Closed;
    }

    /** `createMediaStreamDestination()`: a new destination whose output stream carries
        exactly one (fresh, live) audio track and which nothing feeds yet. */
    method CreateDestination() returns (d: AudioDestination)
      ensures fresh(d) && fresh(d.stream) && d.context == this && d.mixed == {}
      ensures |d.stream.tracks| == 1 && fresh(d.stream.tracks[0])
      ensures d.stream.tracks[0].kind == Audio && !d.stream.tracks[0].ended
    {
      var output := new Track(Audio);
      var stream := new MediaStream.WithTracks([output]);
      d := new AudioDestination(this, stream);
    }
  }

  /** A MediaStreamAudioDestinationNode: `mixed` is the set of sources whose
      source → gain → compressor path has been connected into it. */
  class AudioDestination {
    const context: AudioContext
    const stream: MediaStream
    var mixed: set<AudioInput>

    constructor (context: AudioContext, stream: MediaStream)
      ensures this.context == context && this.stream == stream && mixed == {}
    {
      this.context := context;
      this.stream := stream;
      mixed := {};
    }

    /** Connects the path of `input` through the shared compressor into this destination. */
    method Connect(input: AudioInput)
      modifies this
      ensures mixed == old(mixed) + {input}
    {
      mixed := mixed + {input};
    }
  }

  datatype RecorderState = Inactive | Recording

  /** A MediaRecorder over one stream with one container/codec type. */
  class Recorder {
    const stream: MediaStream
    const mimeType: string
    var state: RecorderState

    constructor (stream: MediaStream, mimeType: string)
      ensures this.stream == stream && this.mimeType == mimeType && state == Inactive
    {
      this.stream := stream;
      this.mimeType := mimeType;
      state := Inactive;
    }

    method Start()
      modifies this
      ensures state == Recording
    {
      state := Recording;
    }

    method Stop()
      modifies this
      ensures state == Inactive
    {
      state := Inactive;
    }
  }

  /** The recording indicator element; only whether it is attached to the page is kept. */
  class Indicator {
    var attached: bool

    constructor ()
      ensures attached
    {
      attached := true;
    }

    /** `element.remove()` */
    method Remove()
      modifies this
      ensures !attached
    {
      attached := false;
    }
  }
}
