/** `src/generic/encoder.rs`: an encoder of either kind, as the muxer holds them. */
module GenericEncoding {
  import opened Ints
  import opened Wrappers
  import opened AvErrors
  import opened Timebases
  import Codecs
  import Scalers
  import VideoFrames
  import RefMutFrames
  import Draining
  import VideoEncoding
  import AudioEncoding
  import CodecVideoEncoding

  datatype Encoder = Video(video: VideoEncoding.Encoder) | Audio(audio: AudioEncoding.Encoder)

  /** `into_video_encoder` (and `as_video_encoder`, `as_mut_video_encoder`). */
  function IntoVideoEncoder(e: Encoder): (r: Option<VideoEncoding.Encoder>)
    ensures r.Some? <==> e.Video?
    ensures r.Some? ==> r.value == e.video
  {
    match e
    case Video(v) => Some(v)
    case Audio(_) => None
  }

  /** `into_audio_encoder` (and `as_audio_encoder`, `as_mut_audio_encoder`). */
  function IntoAudioEncoder(e: Encoder): (r: Option<AudioEncoding.Encoder>)
    ensures r.Some? <==> e.Audio?
    ensures r.Some? ==> r.value == e.audio
  {
    match e
    case Audio(a) => Some(a)
    case Video(_) => None
  }

  /** `From<video::Encoder>`. */
  function FromVideo(v: VideoEncoding.Encoder): (e: Encoder)
    ensures IntoVideoEncoder(e) == Some(v) && IntoAudioEncoder(e) == None
  {
    Video(v)
  }

  /** `From<audio::Encoder>`. */
  function FromAudio(a: AudioEncoding.Encoder): (e: Encoder)
    ensures IntoAudioEncoder(e) == Some(a) && IntoVideoEncoder(e) == None
  {
    Audio(a)
  }

  /** Exactly one projection succeeds, and wrapping its result again rebuilds the encoder. */
  lemma ProjectionsPartition(e: Encoder)
    ensures IntoVideoEncoder(e).Some? != IntoAudioEncoder(e).Some?
    ensures IntoVideoEncoder(e).Some? ==> FromVideo(IntoVideoEncoder(e).value) == e
    ensures IntoAudioEncoder(e).Some? ==> FromAudio(IntoAudioEncoder(e).value) == e
  {
  }

  /** `codec`: asks the wrapped encoder. */
  function CodecOf(e: Encoder): (c: Codecs.Codec)
    ensures e.Video? ==> c == VideoEncoding.CodecOf(e.video)
    ensures e.Audio? ==> c == AudioEncoding.CodecOf(e.audio)
  {
    match e
    case Video(v) => VideoEncoding.CodecOf(v)
    case Audio(a) => AudioEncoding.CodecOf(a)
  }

  /** `time_base`: asks the wrapped encoder. */
  function TimeBase(e: Encoder): (tb: Rational)
    ensures e.Video? ==> tb == VideoEncoding.TimeBase(e.video)
    ensures e.Audio? ==> tb == AudioEncoding.TimeBase(e.audio)
  {
    match e
    case Video(v) => VideoEncoding.TimeBase(v)
    case Audio(a) => AudioEncoding.TimeBase(a)
  }

  /** The `flags` field of the wrapped codec context (read through `as_mut`). */
  function ContextFlags(e: Encoder): (f: Flags)
    ensures e.Video? ==> f == e.video.ctx.flags
    ensures e.Audio? ==> f == e.audio.ctx.flags
  {
    match e
    case Video(v) => v.ctx.flags
    case Audio(a) => a.ctx.flags
  }

  predicate Valid(e: Encoder) { e.Video? ==> VideoEncoding.Valid(e.video) }

  /** What the video path of `send_frame` needs of the encoder, the frame and the scratch-frame allocation. */
  predicate CanSend(e: Encoder, frame: RefMutFrames.RefMutFrame, alloc: VideoEncoding.FrameAlloc)
  {
    && Valid(e)
    && (e.Video? && frame.Video? ==> VideoFrames.Valid(frame.video) && VideoEncoding.AllocFits(e.video, alloc))
  }

  /**
   * The packet loop ends whenever it is reached: the library eventually
   * returns a non-zero code or the handler fails.
   */
  predicate SendDecided(e: Encoder, frame: RefMutFrames.RefMutFrame, getContext: Scalers.SwsGetContext,
                        alloc: VideoEncoding.FrameAlloc, codes: seq<int>, handler: nat -> Result<(), string>)
    requires CanSend(e, frame, alloc)
  {
    && (e.Video? && frame.Video? && VideoEncoding.PrepareFrame(e.video, frame.video, getContext, alloc).result.Ok? ==>
          Draining.Decided(codes, handler))
    && (e.Audio? && frame.Audio? ==> Draining.Decided(codes, handler))
  }

  /**
   * What the wrapped encoder's `send_frame` answers: the media-type
   * refusal of the other kind of frame, a failed scaling step's error
   * for video, and otherwise the end of the packet loop.
   */
  predicate SendOutcome(e: Encoder, frame: RefMutFrames.RefMutFrame, getContext: Scalers.SwsGetContext,
                        alloc: VideoEncoding.FrameAlloc, codes: seq<int>, handler: nat -> Result<(), string>,
                        result: Result<(), Error>, log: seq<Draining.Event>)
    requires CanSend(e, frame, alloc) && SendDecided(e, frame, getContext, alloc, codes, handler)
  {
    if e.Video? && frame.Audio? then result == Err(Msg("Cannot encode non-video frame as video")) && log == []
    else if e.Audio? && frame.Video? then result == Err(Msg("Cannot encode non-audio frame as audio")) && log == []
    else if e.Video? && VideoEncoding.PrepareFrame(e.video, frame.video, getContext, alloc).result.Err? then
      result == Err(VideoEncoding.PrepareFrame(e.video, frame.video, getContext, alloc).result.error) && log == []
    else Draining.LoopEnds(codes, handler, result, log)
  }

  /** The encoder after `send_frame`, what it returned, and the handler/unref events. */
  datatype Sent = Sent(encoder: Encoder, result: Result<(), Error>, log: seq<Draining.Event>)

  /**
   * `send_frame`: hands the frame to the wrapped encoder. For a video
   * encoder this is the send-and-drain of `VideoEncoder::send_frame`
   * (src/codec/video_encoder.rs), after the video/non-video check of
   * `video::Encoder::encode`.
   */
  method SendFrame(e: Encoder, frame: RefMutFrames.RefMutFrame, getContext: Scalers.SwsGetContext,
                   alloc: VideoEncoding.FrameAlloc, codes: seq<int>, handler: nat -> Result<(), string>)
    returns (s: Sent)
    requires CanSend(e, frame, alloc)
    requires SendDecided(e, frame, getContext, alloc, codes, handler)
    ensures e.Video? <==> s.encoder.Video?
    ensures Valid(s.encoder)
    ensures e.Audio? ==> s.encoder == e
    ensures e.Video? != frame.Video? ==> s.log == [] && s.result.Err?
    ensures e.Video? && frame.Audio? ==> s.encoder == e && s.result == Err(Msg("Cannot encode non-video frame as video"))
    ensures e.Audio? && frame.Video? ==> s.result == Err(Msg("Cannot encode non-audio frame as audio"))
    ensures e.Video? && frame.Video? ==>
      s.encoder.video == VideoEncoding.PrepareFrame(e.video, frame.video, getContext, alloc).encoder
    ensures SendOutcome(e, frame, getContext, alloc, codes, handler, s.result, s.log)
    ensures s.result.Ok? ==> e.Video? == frame.Video?
    ensures e.Audio? && frame.Audio? && s.result.Ok? ==>
      var n := Draining.Stop(codes, handler, 0);
      Draining.IsEnd(codes[n]) && s.log == Draining.HandledPackets(n)
    ensures e.Video? && frame.Video? && s.result.Ok? ==>
      && VideoEncoding.PrepareFrame(e.video, frame.video, getContext, alloc).result.Ok?
      && var n := Draining.Stop(codes, handler, 0);
      Draining.IsEnd(codes[n]) && s.log == Draining.HandledPackets(n)
  {
    match e
    case Video(v) =>
      if frame.Audio? {
        return Sent(e, Err(Msg("Cannot encode non-video frame as video")), []);
      }
      var sent := CodecVideoEncoding.SendFrame(v, frame.video, getContext, alloc, codes, handler);
      s := Sent(Video(sent.encoder), sent.result, sent.log);
    case Audio(a) =>
      var result, log := AudioEncoding.SendFrame(a, frame, codes, handler);
      s := Sent(e, result, log);
  }
}
