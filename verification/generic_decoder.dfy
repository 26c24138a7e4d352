/** `src/generic/decoder.rs`: a decoder of either kind, chosen by the stream's media type. */
module GenericDecoding {
  import opened Wrappers
  import opened AvErrors
  import opened Timebases
  import MediaTypes
  import Codecs
  import Streams
  import VideoDecoding

  /**
   * `audio::Decoder`: src/audio/decoder.rs is not part of this model,
   * so only the two fields the generic decoder reads are kept.
   */
  datatype AudioDecoder = AudioDecoder(codec: Codecs.Codec, timeBase: Rational)

  datatype Decoder = Video(video: VideoDecoding.Decoder) | Audio(audio: AudioDecoder)

  /**
   * `from_stream`: dispatch on the codec parameters' media type.
   * `video` is what `video::Decoder::from_stream` returns for the stream
   * and `audio` what `audio::Decoder::from_stream` returns; only the one
   * the media type selects is used.
   */
  function FromStream(s: Streams.Stream, video: Result<VideoDecoding.Decoder, Error>, audio: Result<AudioDecoder, Error>)
    : (r: Result<Decoder, Error>)
    ensures s.codecType.Video? ==> (
      && (r.Ok? <==> video.Ok?)
      && (r.Ok? ==> r.value == Video(video.value))
      && (r.Err? ==> r.error == video.error))
    ensures s.codecType.Audio? ==> (
      && (r.Ok? <==> audio.Ok?)
      && (r.Ok? ==> r.value == Audio(audio.value))
      && (r.Err? ==> r.error == audio.error))
    ensures !s.codecType.Video? && !s.codecType.Audio? ==> r == Err(UnsupportedMediaType(s.codecType))
  {
    if s.codecType.Video? then
      match video
      case Ok(d) => Ok(Video(d))
      case Err(err) => Err(err)
    else if s.codecType.Audio? then
      match audio
      case Ok(d) => Ok(Audio(d))
      case Err(err) => Err(err)
    else Err(UnsupportedMediaType(s.codecType))
  }

  /** A decoder built from a stream is of the stream's media type. */
  lemma FromStreamMatchesMediaType(s: Streams.Stream, video: Result<VideoDecoding.Decoder, Error>,
                                   audio: Result<AudioDecoder, Error>)
    requires FromStream(s, video, audio).Ok?
    ensures FromStream(s, video, audio).value.Video? <==> s.codecType.Video?
    ensures FromStream(s, video, audio).value.Audio? <==> s.codecType.Audio?
  {
  }

  /** `into_video_encoder` (sic; and its `as_` forms): the video decoder, if that is the kind. */
  function IntoVideoDecoder(d: Decoder): (r: Option<VideoDecoding.Decoder>)
    ensures r.Some? <==> d.Video?
    ensures r.Some? ==> r.value == d.video
  {
    match d
    case Video(v) => Some(v)
    case Audio(_) => None
  }

  /** `into_audio_encoder` (sic; and its `as_` forms). */
  function IntoAudioDecoder(d: Decoder): (r: Option<AudioDecoder>)
    ensures r.Some? <==> d.Audio?
    ensures r.Some? ==> r.value == d.audio
  {
    match d
    case Audio(a) => Some(a)
    case Video(_) => None
  }

  /** `From<video::Decoder>`. */
  function FromVideo(v: VideoDecoding.Decoder): (d: Decoder)
    ensures IntoVideoDecoder(d) == Some(v) && IntoAudioDecoder(d) == None
  {
    Video(v)
  }

  /** `From<audio::Decoder>`. */
  function FromAudio(a: AudioDecoder): (d: Decoder)
    ensures IntoAudioDecoder(d) == Some(a) && IntoVideoDecoder(d) == None
  {
    Audio(a)
  }

  /** Exactly one projection succeeds, and wrapping its result again rebuilds the decoder. */
  lemma ProjectionsPartition(d: Decoder)
    ensures IntoVideoDecoder(d).Some? != IntoAudioDecoder(d).Some?
    ensures IntoVideoDecoder(d).Some? ==> FromVideo(IntoVideoDecoder(d).value) == d
    ensures IntoAudioDecoder(d).Some? ==> FromAudio(IntoAudioDecoder(d).value) == d
  {
  }

  /** `codec`: asks the wrapped decoder. */
  function CodecOf(d: Decoder): (c: Codecs.Codec)
    ensures d.Video? ==> c == VideoDecoding.CodecOf(d.video)
    ensures d.Audio? ==> c == d.audio.codec
  {
    match d
    case Video(v) => VideoDecoding.CodecOf(v)
    case Audio(a) => a.codec
  }

  /** `time_base`: asks the wrapped decoder. */
  function TimeBase(d: Decoder): (tb: Rational)
    ensures d.Video? ==> tb == VideoDecoding.TimeBase(d.video)
    ensures d.Audio? ==> tb == d.audio.timeBase
  {
    match d
    case Video(v) => VideoDecoding.TimeBase(v)
    case Audio(a) => a.timeBase
  }
}
