/** `src/audio/encoder.rs`: an audio encoder and its builder. */
module AudioEncoding {
  import opened Ints
  import opened Wrappers
  import opened Ffi
  import opened AvErrors
  import opened Timebases
  import Codecs
  import EncoderCommon
  import RefMutFrames
  import Draining

  /** The `AVCodecContext` fields an audio encoder sets and reads. */
  datatype Context = Context(
    codec: Codecs.Codec,
    sampleRate: i32,
    sampleFmt: SampleFormat,
    timeBase: Rational,
    channelLayout: u64,
    channels: int,
    frameSize: i32,
    flags: Flags)

  datatype Encoder = Encoder(ctx: Context)

  function SampleFormatOf(e: Encoder): SampleFormat { e.ctx.sampleFmt }
  /** `sample_rate`: `sample_rate as u32`. */
  function SampleRate(e: Encoder): u32 { WrapU32(e.ctx.sampleRate) }
  function TimeBase(e: Encoder): Rational { e.ctx.timeBase }
  function FrameSize(e: Encoder): usize { WrapUsize(e.ctx.frameSize) }
  function CodecOf(e: Encoder): Codecs.Codec { e.ctx.codec }

  datatype Builder = Builder(
    codec: Codecs.Codec,
    sampleFormat: Option<SampleFormat>,
    sampleRate: Option<u32>,
    channelLayout: Option<u64>)

  /** `EncoderBuilder::from_codec`: every option unset. */
  function FromCodec(codec: Codecs.Codec): (b: Builder)
    ensures b.codec == codec && b.sampleFormat.None? && b.sampleRate.None? && b.channelLayout.None?
  {
    Builder(codec, None, None, None)
  }

  function SetSampleFormat(b: Builder, fmt: SampleFormat): (b': Builder)
    ensures b'.sampleFormat == Some(fmt) && b' == b.(sampleFormat := b'.sampleFormat)
  {
    b.(sampleFormat := Some(fmt))
  }

  function SetSampleRate(b: Builder, rate: u32): (b': Builder)
    ensures b'.sampleRate == Some(rate) && b' == b.(sampleRate := b'.sampleRate)
  {
    b.(sampleRate := Some(rate))
  }

  function SetChannelLayout(b: Builder, layout: u64): (b': Builder)
    ensures b'.channelLayout == Some(layout) && b' == b.(channelLayout := b'.channelLayout)
  {
    b.(channelLayout := Some(layout))
  }

  const DEFAULT_SAMPLE_RATE: u32 := 44100

  /**
   * `EncoderBuilder::open`. Unset options default to 44100 Hz, S16 and
   * stereo; the rate is cast with `as c_int` and the time base is one
   * over that rate. `defaults` is the allocated context (`None` for a
   * null pointer), `channelCount` the library's channel count for a
   * layout, `openResult` `avcodec_open2`'s answer.
   */
  function Open(b: Builder, formatFlags: Flags, defaults: Option<Context>, channelCount: u64 -> int, openResult: int)
    : (r: Result<Encoder, Error>)
    ensures r.Ok? <==> defaults.Some? && openResult >= 0
    ensures defaults.None? ==> r == Err(Msg("Could not allocate an encoding context"))
    ensures defaults.Some? && openResult < 0 ==> r == Err(OpenEncoder("audio"))
    ensures r.Ok? ==>
      var ctx := r.value.ctx;
      && ctx.sampleRate == WrapI32(if b.sampleRate.Some? then b.sampleRate.value else DEFAULT_SAMPLE_RATE)
      && ctx.timeBase == Rational(1, ctx.sampleRate)
      && ctx.sampleFmt == (if b.sampleFormat.Some? then b.sampleFormat.value else AV_SAMPLE_FMT_S16)
      && ctx.channelLayout == (if b.channelLayout.Some? then b.channelLayout.value else AV_CH_LAYOUT_STEREO)
      && ctx.channels == channelCount(ctx.channelLayout)
      && ctx.flags == EncoderCommon.Init(formatFlags, defaults.value.flags)
      && ctx.codec == defaults.value.codec && ctx.frameSize == defaults.value.frameSize
  {
    var rate := WrapI32(if b.sampleRate.Some? then b.sampleRate.value else DEFAULT_SAMPLE_RATE);
    var fmt := if b.sampleFormat.Some? then b.sampleFormat.value else AV_SAMPLE_FMT_S16;
    var layout: u64 := if b.channelLayout.Some? then b.channelLayout.value else AV_CH_LAYOUT_STEREO;
    if defaults.None? then Err(Msg("Could not allocate an encoding context"))
    else
      var d := defaults.value;
      var ctx := d.(flags := EncoderCommon.Init(formatFlags, d.flags), sampleRate := rate, sampleFmt := fmt,
                    timeBase := Rational(1, rate), channelLayout := layout, channels := channelCount(layout));
      match EncoderCommon.Open(openResult, "audio").result
      case Err(err) => Err(err)
      case Ok(_) => Ok(Encoder(ctx))
  }

  /**
   * Every `u32` rate survives the trip through the context's C `int`:
   * the encoder reports back the rate it was given, and its time base is
   * one over the rate as stored.
   */
  lemma SampleRateRoundTrip(b: Builder, rate: u32, formatFlags: Flags, defaults: Context,
                            channelCount: u64 -> int, openResult: int)
    requires openResult >= 0
    ensures var r := Open(SetSampleRate(b, rate), formatFlags, Some(defaults), channelCount, openResult);
      r.Ok? && SampleRate(r.value) == rate && TimeBase(r.value).num == 1
  {
    var x := WrapI32(rate);
    assert x == rate || x == rate - TWO_32;
  }

  /** A fresh builder opens to 44100 Hz, S16, stereo and a time base of 1/44100. */
  lemma OpenDefaults(codec: Codecs.Codec, formatFlags: Flags, defaults: Context, channelCount: u64 -> int)
    ensures var r := Open(FromCodec(codec), formatFlags, Some(defaults), channelCount, 0);
      && r.Ok? && SampleRate(r.value) == 44100 && SampleFormatOf(r.value) == AV_SAMPLE_FMT_S16
      && r.value.ctx.channelLayout == AV_CH_LAYOUT_STEREO && TimeBase(r.value) == Rational(1, 44100)
  {
  }

  /**
   * `send_frame`: refuses non-audio frames; otherwise the answer to
   * `avcodec_send_frame` is ignored and the packet loop runs.
   */
  method SendFrame(e: Encoder, frame: RefMutFrames.RefMutFrame, codes: seq<int>, handler: nat -> Result<(), string>)
    returns (result: Result<(), Error>, log: seq<Draining.Event>)
    requires frame.Audio? ==> Draining.Decided(codes, handler)
    ensures frame.Video? ==> result == Err(Msg("Cannot encode non-audio frame as audio")) && log == []
    ensures frame.Audio? ==>
      var n := Draining.Stop(codes, handler, 0);
      && (codes[n] == 0 ==> result == Err(Msg(handler(n).error)) && log == Draining.HandledPackets(n + 1))
      && (Draining.IsEnd(codes[n]) ==> result == Ok(()) && log == Draining.HandledPackets(n))
      && (codes[n] != 0 && !Draining.IsEnd(codes[n]) ==>
            result == Err(Msg("Error encoding packet")) && log == Draining.HandledPackets(n))
  {
    if RefMutFrames.IntoAudioFrame(frame).None? {
      return Err(Msg("Cannot encode non-audio frame as audio")), [];
    }
    var out := Draining.PacketLoop(codes, handler);
    result := if out.result.Ok? then Ok(()) else Err(Msg(out.result.error));
    log := out.log;
  }
}
