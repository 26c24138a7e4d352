/**
 * `src/codec/video_encoder.rs`: the older video encoder, which sends a
 * frame and drains its packets into a handler in one call.
 */
module CodecVideoEncoding {
  import opened Ints
  import opened Wrappers
  import opened Ffi
  import opened AvErrors
  import Codecs
  import Scalers
  import VideoFrames
  import Draining
  import VideoEncoding

  /** `VideoEncoderBuilder::from_codec`: every option unset, and no check on the codec. */
  function FromCodec(codec: Codecs.Codec): (b: VideoEncoding.Builder)
    ensures b.codec == codec
    ensures b.pixelFormat.None? && b.width.None? && b.height.None? && b.timeBase.None? && b.bitrate.None?
  {
    VideoEncoding.Fresh(codec)
  }

  /**
   * Unlike `video::EncoderBuilder::from_codec`, any codec is accepted,
   * audio codecs and decoders included.
   */
  lemma FromCodecAcceptsAnyCodec(codec: Codecs.Codec)
    requires !codec.isEncoder
    ensures VideoEncoding.FromCodec(codec).Err?
    ensures FromCodec(codec) == VideoEncoding.Fresh(codec)
  {
  }

  /**
   * `VideoEncoderBuilder::open`: the same required options and 1/30
   * default as the video encoder, but neither the output format's flags
   * nor `avcodec_open2` are involved: the context is configured as for a
   * format without flags and left unopened.
   */
  function Open(b: VideoEncoding.Builder, defaults: Option<VideoEncoding.Context>): (r: Result<VideoEncoding.Encoder, Error>)
    ensures b.width.None? ==> r == Err(Msg("VideoEncoder width not set"))
    ensures b.width.Some? && b.height.None? ==> r == Err(Msg("VideoEncoder height not set"))
    ensures b.width.Some? && b.height.Some? && b.pixelFormat.None? ==> r == Err(Msg("VideoEncoder pixel_format not set"))
    ensures r.Ok? <==> b.width.Some? && b.height.Some? && b.pixelFormat.Some? && defaults.Some?
    ensures b.width.Some? && b.height.Some? && b.pixelFormat.Some? && defaults.None? ==>
      r == Err(Msg("Could not allocate an encoding context"))
    ensures r.Ok? ==> (r.value.scaler.None? && r.value.tmpFrame.None?
      && r.value.ctx.flags == defaults.value.flags
      && r.value.ctx == VideoEncoding.Configure(b, b.width.value, b.height.value, b.pixelFormat.value, defaults.value, 0))
  {
    if b.width.None? then Err(Msg("VideoEncoder width not set"))
    else if b.height.None? then Err(Msg("VideoEncoder height not set"))
    else if b.pixelFormat.None? then Err(Msg("VideoEncoder pixel_format not set"))
    else if defaults.None? then Err(Msg("Could not allocate an encoding context"))
    else
      var d := defaults.value;
      var withBitrate := if b.bitrate.Some? then d.(bitRate := b.bitrate.value) else d;
      Ok(VideoEncoding.Encoder(
        withBitrate.(codec := b.codec, codecId := b.codec.id, width := b.width.value, height := b.height.value,
                     pixFmt := b.pixelFormat.value,
                     timeBase := if b.timeBase.Some? then b.timeBase.value else VideoEncoding.DEFAULT_TIME_BASE),
        None, None))
  }

  /** The encoder after `send_frame`, what it returned, and the handler/unref events. */
  datatype Sent = Sent(encoder: VideoEncoding.Encoder, result: Result<(), Error>, log: seq<Draining.Event>)

  /**
   * `send_frame`. The frame enum of this module has only a video
   * variant, so the non-video refusal cannot trigger. The frame is
   * prepared as in `video::Encoder::encode`; the answer to
   * `avcodec_send_frame` is ignored; then the packet loop runs over the
   * receive codes `codes`, with the handler answering `handler(i)` for
   * the `i`-th packet.
   */
  method SendFrame(e: VideoEncoding.Encoder, frame: VideoFrames.Frame, getContext: Scalers.SwsGetContext,
                   alloc: VideoEncoding.FrameAlloc, codes: seq<int>, handler: nat -> Result<(), string>)
    returns (s: Sent)
    requires VideoEncoding.Valid(e) && VideoFrames.Valid(frame) && VideoEncoding.AllocFits(e, alloc)
    requires VideoEncoding.PrepareFrame(e, frame, getContext, alloc).result.Ok? ==> Draining.Decided(codes, handler)
    ensures var p := VideoEncoding.PrepareFrame(e, frame, getContext, alloc);
      && s.encoder == p.encoder
      && (p.result.Err? ==> s.result == Err(p.result.error) && s.log == [])
    ensures VideoEncoding.Valid(s.encoder)
    ensures VideoEncoding.PrepareFrame(e, frame, getContext, alloc).result.Ok? ==>
      var n := Draining.Stop(codes, handler, 0);
      && (codes[n] == 0 ==> s.result == Err(Msg(handler(n).error)) && s.log == Draining.HandledPackets(n + 1))
      && (Draining.IsEnd(codes[n]) ==> s.result == Ok(()) && s.log == Draining.HandledPackets(n))
      && (codes[n] != 0 && !Draining.IsEnd(codes[n]) ==>
            s.result == Err(Msg("Error encoding packet")) && s.log == Draining.HandledPackets(n))
  {
    var p := VideoEncoding.PrepareFrame(e, frame, getContext, alloc);
    if p.result.Err? {
      return Sent(p.encoder, Err(p.result.error), []);
    }
    var out := Draining.PacketLoop(codes, handler);
    var result := if out.result.Ok? then Ok(()) else Err(Msg(out.result.error));
    s := Sent(p.encoder, result, out.log);
  }
}
