/** `src/audio/frame.rs`: an owned audio `AVFrame`. */
module AudioFrames {
  import opened Ints
  import opened Wrappers
  import opened Ffi
  import opened AvErrors

  /**
   * An audio frame: the sample format the binding remembers, the
   * `AVFrame` fields it writes and reads, and the buffer behind each
   * `data[i]` (empty where the pointer is null). For audio only
   * `linesize[0]` is set; every channel has that many bytes.
   */
  datatype Frame = Frame(
    sampleFormat: SampleFormat,
    pts: i64,
    channelLayout: u64,
    sampleRate: i32,
    nbSamples: i32,
    linesize0: i32,
    data: seq<seq<byte>>)

  /** What `av_frame_get_buffer` hands out for audio. */
  datatype Buffer = Buffer(linesize0: i32, data: seq<seq<byte>>)

  /** An `AVFrame` straight from `av_frame_alloc`: no buffers, linesize 0. */
  function Unbuffered(): (b: Buffer)
    ensures b.linesize0 == 0 && |b.data| == AV_NUM_DATA_POINTERS
    ensures forall i :: 0 <= i < AV_NUM_DATA_POINTERS ==> b.data[i] == []
  {
    Buffer(0, seq(AV_NUM_DATA_POINTERS, _ => []))
  }

  /** Whether `new` asks for a buffer: only for a non-empty frame. */
  predicate WantsBuffer(numSamples: usize) { numSamples > 0 }

  /**
   * The fields `new` writes, with the buffer `av_frame_get_buffer`
   * allocated, or none if it was not asked.
   */
  function Fill(numSamples: usize, sampleRate: u32, sampleFormat: SampleFormat, channelLayout: u64,
                buffer: Buffer): (f: Frame)
    ensures f.pts == 0 && f.sampleFormat == sampleFormat && f.channelLayout == channelLayout
    ensures f.sampleRate == WrapI32(sampleRate) && f.nbSamples == WrapI32(numSamples)
    ensures WantsBuffer(numSamples) ==> f.linesize0 == buffer.linesize0 && f.data == buffer.data
    ensures !WantsBuffer(numSamples) ==> f.linesize0 == 0 && f.data == Unbuffered().data
  {
    var b := if WantsBuffer(numSamples) then buffer else Unbuffered();
    Frame(sampleFormat, 0, channelLayout, WrapI32(sampleRate), WrapI32(numSamples), b.linesize0, b.data)
  }

  /**
   * `Frame::new`. `frameAllocated` says whether `av_frame_alloc`
   * returned a frame; `getBuffer` is the return code of
   * `av_frame_get_buffer` and only matters when a buffer is asked for.
   */
  function New(numSamples: usize, sampleRate: u32, sampleFormat: SampleFormat, channelLayout: u64,
               frameAllocated: bool, getBuffer: int, buffer: Buffer): (r: Result<Frame, Error>)
    ensures r.Ok? <==> frameAllocated && (!WantsBuffer(numSamples) || getBuffer >= 0)
    ensures !frameAllocated ==> r == Err(Msg("Could not allocate frame"))
    ensures frameAllocated && WantsBuffer(numSamples) && getBuffer < 0 ==>
      r == Err(MsgWithCode("Could not allocate audio frame buffer", getBuffer))
    ensures r.Ok? ==> r.value == Fill(numSamples, sampleRate, sampleFormat, channelLayout, buffer)
  {
    if !frameAllocated then Err(Msg("Could not allocate frame"))
    else if WantsBuffer(numSamples) && getBuffer < 0 then
      Err(MsgWithCode("Could not allocate audio frame buffer", getBuffer))
    else Ok(Fill(numSamples, sampleRate, sampleFormat, channelLayout, buffer))
  }

  /** An empty frame never consults `av_frame_get_buffer`. */
  lemma EmptyFrameIgnoresBuffer(sampleRate: u32, sampleFormat: SampleFormat, channelLayout: u64,
                                frameAllocated: bool, code1: int, code2: int, b1: Buffer, b2: Buffer)
    ensures New(0, sampleRate, sampleFormat, channelLayout, frameAllocated, code1, b1)
         == New(0, sampleRate, sampleFormat, channelLayout, frameAllocated, code2, b2)
  {
  }

  /** `num_samples`: `nb_samples as usize`. */
  function NumSamples(f: Frame): usize { WrapUsize(f.nbSamples) }

  /**
   * `num_samples` gives back what `new` was given exactly when it fits a
   * C `int`; larger counts come back truncated to 32 bits.
   */
  lemma NumSamplesRoundTrip(numSamples: usize, sampleRate: u32, sampleFormat: SampleFormat, channelLayout: u64,
                            buffer: Buffer)
    ensures numSamples <= I32_MAX ==>
      NumSamples(Fill(numSamples, sampleRate, sampleFormat, channelLayout, buffer)) == numSamples
    ensures numSamples == TWO_32 ==>
      NumSamples(Fill(numSamples, sampleRate, sampleFormat, channelLayout, buffer)) == 0
  {
  }

  function SetPts(f: Frame, pts: i64): (g: Frame)
    ensures g.pts == pts
    ensures g == f.(pts := pts)
  {
    f.(pts := pts)
  }

  /**
   * How many `data` slots `data_mut` hands out: one per channel, except
   * that an interleaved format keeps all channels in a single slot.
   * `numChannels` is `av_get_channel_layout_nb_channels`, `planar` is
   * `av_sample_fmt_is_planar(...) != 0`.
   */
  function SlotCount(numChannels: usize, planar: bool): (n: usize)
    ensures planar ==> n == numChannels
    ensures !planar ==> n == (if numChannels == 0 then 0 else 1)
  {
    if !planar && numChannels > 1 then 1 else numChannels
  }

  /**
   * `data_mut`: eight slices; the first `SlotCount` are the first
   * `linesize[0]` bytes of their buffers, the rest are empty. A slot
   * count above eight indexes past the array and panics.
   */
  function DataMut(f: Frame, numChannels: usize, planar: bool): (channels: seq<seq<byte>>)
    requires SlotCount(numChannels, planar) <= AV_NUM_DATA_POINTERS
    requires |f.data| == AV_NUM_DATA_POINTERS && f.linesize0 >= 0
    requires forall i :: 0 <= i < SlotCount(numChannels, planar) ==> |f.data[i]| >= f.linesize0
    ensures |channels| == AV_NUM_DATA_POINTERS
    ensures forall i :: 0 <= i < AV_NUM_DATA_POINTERS ==>
      (if i < SlotCount(numChannels, planar)
       then |channels[i]| == f.linesize0 && channels[i] == f.data[i][..f.linesize0]
       else channels[i] == [])
  {
    var n := SlotCount(numChannels, planar);
    seq(AV_NUM_DATA_POINTERS, i requires 0 <= i < AV_NUM_DATA_POINTERS =>
      if i < n then f.data[i][..f.linesize0] else [])
  }

  /** An interleaved frame exposes at most one non-empty slice, a planar one one per channel. */
  lemma InterleavedUsesOneSlot(f: Frame, numChannels: usize)
    requires numChannels >= 1
    requires |f.data| == AV_NUM_DATA_POINTERS && f.linesize0 > 0 && |f.data[0]| >= f.linesize0
    ensures var d := DataMut(f, numChannels, false);
      |d[0]| == f.linesize0 && forall i :: 1 <= i < AV_NUM_DATA_POINTERS ==> d[i] == []
  {
  }
}

/** `src/frame/audio_frame.rs`: the older audio frame type with string errors. */
module StandaloneAudioFrames {
  import opened Ints
  import opened Wrappers
  import AudioFrames

  /**
   * `AudioFrame::new`: the same frame as `audio::Frame::new`, with
   * plain string errors that do not carry the return code.
   */
  function New(numSamples: usize, sampleRate: u32, sampleFormat: int, channelLayout: u64,
               frameAllocated: bool, getBuffer: int, buffer: AudioFrames.Buffer): (r: Result<AudioFrames.Frame, string>)
    ensures r.Ok? <==> frameAllocated && (!AudioFrames.WantsBuffer(numSamples) || getBuffer >= 0)
    ensures !frameAllocated ==> r == Err("Could not allocate frame")
    ensures frameAllocated && AudioFrames.WantsBuffer(numSamples) && getBuffer < 0 ==>
      r == Err("Could not allocate audio frame buffer")
    ensures r.Ok? ==> r.value == AudioFrames.Fill(numSamples, sampleRate, sampleFormat, channelLayout, buffer)
  {
    if !frameAllocated then Err("Could not allocate frame")
    else if AudioFrames.WantsBuffer(numSamples) && getBuffer < 0 then Err("Could not allocate audio frame buffer")
    else Ok(AudioFrames.Fill(numSamples, sampleRate, sampleFormat, channelLayout, buffer))
  }

  /** Both constructors succeed on the same inputs and build the same frame. */
  lemma AgreesWithAudioFrame(numSamples: usize, sampleRate: u32, sampleFormat: int, channelLayout: u64,
                             frameAllocated: bool, getBuffer: int, buffer: AudioFrames.Buffer)
    ensures var a := New(numSamples, sampleRate, sampleFormat, channelLayout, frameAllocated, getBuffer, buffer);
      var b := AudioFrames.New(numSamples, sampleRate, sampleFormat, channelLayout, frameAllocated, getBuffer, buffer);
      a.Ok? == b.Ok? && (a.Ok? ==> a.value == b.value)
  {
  }

  /**
   * `pts_add`: `pts += amount`, which panics on `i64` overflow in a
   * debug build.
   */
  function PtsAdd(f: AudioFrames.Frame, amount: i64): (g: AudioFrames.Frame)
    requires IsI64(f.pts + amount)
    ensures g.pts - f.pts == amount
    ensures g == f.(pts := g.pts)
  {
    f.(pts := f.pts + amount)
  }

  /** Two shifts add up, and shifting by zero changes nothing. */
  lemma PtsAddComposes(f: AudioFrames.Frame, a: i64, b: i64)
    requires IsI64(f.pts + a) && IsI64(f.pts + a + b) && IsI64(a + b)
    ensures PtsAdd(PtsAdd(f, a), b) == PtsAdd(f, a + b)
    ensures PtsAdd(f, 0) == f
  {
  }
}
