/** `src/generic/frame.rs`: an owned frame of either kind. */
module GenericFrames {
  import opened Wrappers
  import VideoFrames
  import AudioFrames

  datatype Frame = Video(video: VideoFrames.Frame) | Audio(audio: AudioFrames.Frame)

  /** `into_video_frame` (and `as_mut_video_frame`, which borrows the same frame). */
  function IntoVideoFrame(f: Frame): (r: Option<VideoFrames.Frame>)
    ensures r.Some? <==> f.Video?
    ensures r.Some? ==> r.value == f.video
  {
    match f
    case Video(v) => Some(v)
    case Audio(_) => None
  }

  /** `into_audio_frame` (and `as_mut_audio_frame`). */
  function IntoAudioFrame(f: Frame): (r: Option<AudioFrames.Frame>)
    ensures r.Some? <==> f.Audio?
    ensures r.Some? ==> r.value == f.audio
  {
    match f
    case Audio(a) => Some(a)
    case Video(_) => None
  }

  /** `From<video::Frame>`: projecting back gives the frame, the other projection nothing. */
  function FromVideo(v: VideoFrames.Frame): (f: Frame)
    ensures IntoVideoFrame(f) == Some(v) && IntoAudioFrame(f) == None
  {
    Video(v)
  }

  /** `From<audio::Frame>`. */
  function FromAudio(a: AudioFrames.Frame): (f: Frame)
    ensures IntoAudioFrame(f) == Some(a) && IntoVideoFrame(f) == None
  {
    Audio(a)
  }

  /** Exactly one projection succeeds, and wrapping its result again rebuilds the frame. */
  lemma ProjectionsPartition(f: Frame)
    ensures IntoVideoFrame(f).Some? != IntoAudioFrame(f).Some?
    ensures IntoVideoFrame(f).Some? ==> FromVideo(IntoVideoFrame(f).value) == f
    ensures IntoAudioFrame(f).Some? ==> FromAudio(IntoAudioFrame(f).value) == f
  {
  }
}

/** `src/generic/ref_mut_frame.rs`: a borrowed frame of either kind. */
module RefMutFrames {
  import opened Wrappers
  import VideoFrames
  import AudioFrames

  datatype RefMutFrame = Video(video: VideoFrames.Frame) | Audio(audio: AudioFrames.Frame)

  function IntoVideoFrame(f: RefMutFrame): (r: Option<VideoFrames.Frame>)
    ensures r.Some? <==> f.Video?
    ensures r.Some? ==> r.value == f.video
  {
    match f
    case Video(v) => Some(v)
    case Audio(_) => None
  }

  function IntoAudioFrame(f: RefMutFrame): (r: Option<AudioFrames.Frame>)
    ensures r.Some? <==> f.Audio?
    ensures r.Some? ==> r.value == f.audio
  {
    match f
    case Audio(a) => Some(a)
    case Video(_) => None
  }

  /** `From<&mut video::Frame>`. */
  function FromVideo(v: VideoFrames.Frame): (f: RefMutFrame)
    ensures IntoVideoFrame(f) == Some(v) && IntoAudioFrame(f) == None
  {
    Video(v)
  }

  /** `From<&mut audio::Frame>`. */
  function FromAudio(a: AudioFrames.Frame): (f: RefMutFrame)
    ensures IntoAudioFrame(f) == Some(a) && IntoVideoFrame(f) == None
  {
    Audio(a)
  }

  /** Exactly one of the two projections is `Some`, and it gives back what was wrapped. */
  lemma ExactlyOneProjection(f: RefMutFrame)
    ensures IntoVideoFrame(f).Some? != IntoAudioFrame(f).Some?
    ensures IntoVideoFrame(f).Some? ==> FromVideo(IntoVideoFrame(f).value) == f
    ensures IntoAudioFrame(f).Some? ==> FromAudio(IntoAudioFrame(f).value) == f
  {
  }
}
