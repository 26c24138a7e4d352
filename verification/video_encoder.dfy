/** `src/video/encoder.rs`: a video encoder, its builder and its packet iterator. */
module VideoEncoding {
  import opened Ints
  import opened Wrappers
  import opened Ffi
  import opened MediaTypes
  import opened AvErrors
  import opened Timebases
  import Codecs
  import EncoderCommon
  import Scalers
  import VideoFrames
  import RefMutFrames
  import Draining

  /** Alignment of the temporary frame's buffers. */
  const ALIGN: usize := 32

  /** The `AVCodecContext` fields a video encoder sets and reads. */
  datatype Context = Context(
    codec: Codecs.Codec,
    codecId: CodecId,
    width: i32,
    height: i32,
    pixFmt: PixelFormat,
    bitRate: i64,
    timeBase: Rational,
    flags: Flags)

  /** An opened encoder with its lazily built scaler and temporary frame. */
  datatype Encoder = Encoder(ctx: Context, scaler: Option<Scalers.Scaler>, tmpFrame: Option<VideoFrames.Frame>)

  function PixelFormat(e: Encoder): PixelFormat { e.ctx.pixFmt }
  function Width(e: Encoder): usize { WrapUsize(e.ctx.width) }
  function Height(e: Encoder): usize { WrapUsize(e.ctx.height) }
  function TimeBase(e: Encoder): Rational { e.ctx.timeBase }
  function CodecOf(e: Encoder): Codecs.Codec { e.ctx.codec }

  /**
   * What the encoder keeps true of itself: a non-negative size, and a
   * temporary frame, once made, that has the encoder's geometry.
   */
  predicate Valid(e: Encoder)
  {
    && e.ctx.width >= 0 && e.ctx.height >= 0
    && (e.tmpFrame.Some? ==>
         VideoFrames.Valid(e.tmpFrame.value)
         && VideoFrames.IsCompatibleWithEncoder(e.tmpFrame.value, PixelFormat(e), Width(e), Height(e)))
  }

  /** `scaler_needs_update`: no scaler yet, or it was built for another source format or size. */
  predicate ScalerNeedsUpdate(e: Encoder, source: VideoFrames.Frame)
  {
    match e.scaler
    case None => true
    case Some(s) =>
      || source.pixelFormat != Scalers.SourcePixelFormat(s)
      || VideoFrames.Width(source) != Scalers.SourceWidth(s)
      || VideoFrames.Height(source) != Scalers.SourceHeight(s)
  }

  /**
   * `update_scaler`: when needed, a new scaler from the frame's geometry
   * to the encoder's; a failing constructor leaves the encoder as it was.
   */
  function UpdateScaler(e: Encoder, frame: VideoFrames.Frame, getContext: Scalers.SwsGetContext): (r: Result<Encoder, Error>)
    ensures !ScalerNeedsUpdate(e, frame) ==> r == Ok(e)
    ensures r.Err? ==> ScalerNeedsUpdate(e, frame) && r.error == Msg("Could not create scaler context")
    ensures r.Ok? ==> !ScalerNeedsUpdate(r.value, frame)
    ensures r.Ok? ==> r.value == e.(scaler := r.value.scaler)
    ensures ScalerNeedsUpdate(e, frame) ==>
      var made := Scalers.New(VideoFrames.Width(frame), VideoFrames.Height(frame), frame.pixelFormat,
                              Width(e), Height(e), PixelFormat(e), getContext);
      (r.Ok? <==> made.Ok?) && (r.Ok? ==> r.value.scaler == Some(made.value))
    ensures r.Ok? && ScalerNeedsUpdate(e, frame) ==>
      var s := r.value.scaler.value;
      Scalers.TargetPixelFormat(s) == PixelFormat(e) && Scalers.TargetWidth(s) == Width(e)
      && Scalers.TargetHeight(s) == Height(e)
  {
    if ScalerNeedsUpdate(e, frame) then
      match Scalers.New(VideoFrames.Width(frame), VideoFrames.Height(frame), frame.pixelFormat,
                        Width(e), Height(e), PixelFormat(e), getContext)
      case Err(msg) => Err(Msg(msg))
      case Ok(s) => Ok(e.(scaler := Some(s)))
    else Ok(e)
  }

  /** What the library answers when the temporary frame is allocated. */
  datatype FrameAlloc = FrameAlloc(frameAllocated: bool, getBuffer: int, buffer: VideoFrames.Buffer)

  /** The library keeps its side of `av_frame_get_buffer` for a frame of the encoder's geometry. */
  predicate AllocFits(e: Encoder, alloc: FrameAlloc)
  {
    alloc.getBuffer >= 0 ==>
      VideoFrames.Valid(VideoFrames.Frame(PixelFormat(e), e.ctx.width, e.ctx.height, 0, alloc.buffer.linesize, alloc.buffer.planes))
  }

  /** `init_tmp_frame`: allocate a frame of the encoder's geometry only if there is none yet. */
  function InitTmpFrame(e: Encoder, alloc: FrameAlloc): (r: Result<Encoder, Error>)
    requires Valid(e) && AllocFits(e, alloc)
    ensures e.tmpFrame.Some? ==> r == Ok(e)
    ensures r.Ok? ==> r.value.tmpFrame.Some? && Valid(r.value) && r.value == e.(tmpFrame := r.value.tmpFrame)
    ensures e.tmpFrame.None? ==>
      (r.Ok? <==> alloc.frameAllocated && alloc.getBuffer >= 0)
  {
    if e.tmpFrame.None? then
      match VideoFrames.New(Width(e), Height(e), PixelFormat(e), ALIGN, alloc.frameAllocated, alloc.getBuffer, alloc.buffer)
      case Err(err) => Err(err)
      case Ok(f) => Ok(e.(tmpFrame := Some(f)))
    else Ok(e)
  }

  /** A second `init_tmp_frame` changes nothing, whatever the library would answer. */
  lemma InitTmpFrameIdempotent(e: Encoder, a: FrameAlloc, b: FrameAlloc)
    requires Valid(e) && AllocFits(e, a) && AllocFits(e, b) && InitTmpFrame(e, a).Ok?
    ensures AllocFits(InitTmpFrame(e, a).value, b)
    ensures InitTmpFrame(InitTmpFrame(e, a).value, b) == InitTmpFrame(e, a)
  {
    assert InitTmpFrame(e, a).value.ctx == e.ctx;
  }

  /** The frame that goes to the codec and the scale call made to produce it, if any. */
  datatype Outgoing = Outgoing(frame: VideoFrames.Frame, scaled: Option<Scalers.SwsScaleCall>)

  /** The encoder after the scaling path (kept even when a later step fails) and its outcome. */
  datatype Prepared = Prepared(encoder: Encoder, result: Result<Outgoing, Error>)

  /**
   * The scaling path of `encode` (and of the codec-module `send_frame`):
   * a frame the encoder accepts goes out as it is; any other frame is
   * scaled into the temporary frame, which takes over the frame's pts.
   * A scaler built before the temporary frame fails to allocate stays.
   * The pixels `sws_scale` writes are not modelled.
   */
  function PrepareFrame(e: Encoder, frame: VideoFrames.Frame, getContext: Scalers.SwsGetContext, alloc: FrameAlloc)
    : (p: Prepared)
    requires Valid(e) && VideoFrames.Valid(frame) && AllocFits(e, alloc)
    ensures VideoFrames.IsCompatibleWithEncoder(frame, PixelFormat(e), Width(e), Height(e)) ==>
      p == Prepared(e, Ok(Outgoing(frame, None)))
    ensures Valid(p.encoder) && p.encoder.ctx == e.ctx
    ensures p.result.Ok? ==> VideoFrames.IsCompatibleWithEncoder(p.result.value.frame, PixelFormat(e), Width(e), Height(e))
    ensures p.result.Ok? ==> p.result.value.frame.pts == frame.pts
    ensures p.result.Ok? && p.result.value.scaled.Some? ==>
      p.encoder.tmpFrame.Some? && p.result.value.frame == p.encoder.tmpFrame.value.(pts := frame.pts)
    ensures !VideoFrames.IsCompatibleWithEncoder(frame, PixelFormat(e), Width(e), Height(e)) ==>
      var u := UpdateScaler(e, frame, getContext);
      && (u.Err? ==> p == Prepared(e, Err(u.error)))
      && (u.Ok? ==> InitTmpFrame(u.value, alloc).Err? ==>
            p == Prepared(u.value, Err(InitTmpFrame(u.value, alloc).error)))
      && (u.Ok? ==> InitTmpFrame(u.value, alloc).Ok? ==>
            var e2 := InitTmpFrame(u.value, alloc).value;
            && p.encoder == e2 && p.result.Ok?
            && p.result.value.scaled == Some(Scalers.ScaleFrame(e2.scaler.value, frame, e2.tmpFrame.value))
            && p.result.value.frame == e2.tmpFrame.value.(pts := frame.pts))
  {
    if VideoFrames.IsCompatibleWithEncoder(frame, PixelFormat(e), Width(e), Height(e)) then
      Prepared(e, Ok(Outgoing(frame, None)))
    else
      match UpdateScaler(e, frame, getContext)
      case Err(err) => Prepared(e, Err(err))
      case Ok(e1) =>
        match InitTmpFrame(e1, alloc)
        case Err(err) => Prepared(e1, Err(err))
        case Ok(e2) =>
          var tmp := e2.tmpFrame.value;
          var call := Scalers.ScaleFrame(e2.scaler.value, frame, tmp);
          Prepared(e2, Ok(Outgoing(VideoFrames.SetPts(tmp, VideoFrames.Pts(frame)), Some(call))))
  }

  /**
   * The scaler and the temporary frame are built once: after a frame of
   * another format or size went out, a second frame of that same format
   * and size reuses both, whatever the library would answer now.
   */
  lemma SameGeometryReusesScalerAndTmpFrame(e: Encoder, f: VideoFrames.Frame, g: VideoFrames.Frame,
                                            getContext: Scalers.SwsGetContext, alloc: FrameAlloc,
                                            getContext2: Scalers.SwsGetContext, alloc2: FrameAlloc)
    requires Valid(e) && VideoFrames.Valid(f) && VideoFrames.Valid(g) && AllocFits(e, alloc) && AllocFits(e, alloc2)
    requires !VideoFrames.IsCompatibleWithEncoder(f, PixelFormat(e), Width(e), Height(e))
    requires PrepareFrame(e, f, getContext, alloc).result.Ok?
    requires g.pixelFormat == f.pixelFormat && VideoFrames.Width(g) == VideoFrames.Width(f)
    requires VideoFrames.Height(g) == VideoFrames.Height(f)
    ensures var e1 := PrepareFrame(e, f, getContext, alloc).encoder;
      && AllocFits(e1, alloc2)
      && PrepareFrame(e1, g, getContext2, alloc2).encoder == e1
      && PrepareFrame(e1, g, getContext2, alloc2).result.Ok?
      && PrepareFrame(e1, g, getContext2, alloc2).result.value.scaled
         == Some(Scalers.ScaleFrame(e1.scaler.value, g, e1.tmpFrame.value))
  {
  }

  /** The encoder after `encode`, what it returned, and the frame sent to the codec (if any). */
  datatype Encoded = Encoded(encoder: Encoder, result: Result<(), Error>, sent: Option<VideoFrames.Frame>)

  /**
   * `encode`: refuses non-video frames, prepares the frame, sends it
   * (`sendResult` is `avcodec_send_frame`'s answer) and, on success,
   * hands back the packet iterator.
   */
  function Encode(e: Encoder, frame: RefMutFrames.RefMutFrame, getContext: Scalers.SwsGetContext, alloc: FrameAlloc,
                  sendResult: int): (r: Encoded)
    requires Valid(e) && AllocFits(e, alloc)
    requires frame.Video? ==> VideoFrames.Valid(frame.video)
    ensures frame.Audio? ==> r == Encoded(e, Err(Msg("Cannot encode non-video frame as video")), None)
    ensures Valid(r.encoder) && r.encoder.ctx == e.ctx
    ensures r.sent.Some? ==> VideoFrames.IsCompatibleWithEncoder(r.sent.value, PixelFormat(e), Width(e), Height(e))
    ensures r.sent.Some? ==> r.sent.value.pts == frame.video.pts
    ensures r.result.Ok? <==> r.sent.Some? && sendResult >= 0
    ensures r.sent.Some? && sendResult < 0 ==> r.result == Err(MsgWithCode("Could not encode frame", sendResult))
    ensures frame.Video? ==>
      var p := PrepareFrame(e, frame.video, getContext, alloc);
      && r.encoder == p.encoder
      && (p.result.Err? ==> r.result == Err(p.result.error) && r.sent.None?)
      && (p.result.Ok? ==> r.sent == Some(p.result.value.frame))
  {
    match RefMutFrames.IntoVideoFrame(frame)
    case None => Encoded(e, Err(Msg("Cannot encode non-video frame as video")), None)
    case Some(v) =>
      var p := PrepareFrame(e, v, getContext, alloc);
      match p.result
      case Err(err) => Encoded(p.encoder, Err(err), None)
      case Ok(out) =>
        if sendResult < 0 then Encoded(p.encoder, Err(MsgWithCode("Could not encode frame", sendResult)), Some(out.frame))
        else Encoded(p.encoder, Ok(()), Some(out.frame))
  }

  /**
   * A frame already in the encoder's format and size is sent as it is,
   * and the encoder's scaler and temporary frame stay untouched.
   */
  lemma CompatibleFrameGoesOutUnchanged(e: Encoder, v: VideoFrames.Frame, getContext: Scalers.SwsGetContext,
                                        alloc: FrameAlloc, sendResult: int)
    requires Valid(e) && AllocFits(e, alloc) && VideoFrames.Valid(v)
    requires VideoFrames.IsCompatibleWithEncoder(v, PixelFormat(e), Width(e), Height(e))
    ensures Encode(e, RefMutFrames.Video(v), getContext, alloc, sendResult).sent == Some(v)
    ensures Encode(e, RefMutFrames.Video(v), getContext, alloc, sendResult).encoder == e
  {
  }

  /** `flush`: `sendResult` is the answer to the null frame that starts draining. */
  function Flush(sendResult: int): (r: Result<(), Error>)
    ensures r.Ok? <==> sendResult >= 0
    ensures r.Err? ==> r.error == MsgWithCode("Could not flush encoder", sendResult)
  {
    if sendResult < 0 then Err(MsgWithCode("Could not flush encoder", sendResult)) else Ok(())
  }

  /** A received packet, stamped with the encoder's time base. */
  datatype Packet = Packet(data: seq<byte>, timeBase: Rational)

  /** `Packets::next`: `code` is `avcodec_receive_packet`'s answer, `data` the packet it filled. */
  function PacketsNext(e: Encoder, code: int, data: seq<byte>): (r: Option<Result<Packet, Error>>)
    ensures r.None? <==> Draining.IsEnd(code)
    ensures r.Some? && r.value.Ok? <==> code >= 0
    ensures r.Some? && r.value.Ok? ==> r.value.value == Packet(data, TimeBase(e))
    ensures r.Some? && r.value.Err? ==> r.value.error == MsgWithCode("Failed to receive packet", code)
  {
    Draining.Next(code, Packet(data, TimeBase(e)), "Failed to receive packet")
  }

  /** The builder's options; unset options are `None`. */
  datatype Builder = Builder(
    codec: Codecs.Codec,
    pixelFormat: Option<PixelFormat>,
    width: Option<i32>,
    height: Option<i32>,
    timeBase: Option<Rational>,
    bitrate: Option<i64>)

  /** A builder with nothing set. */
  function Fresh(codec: Codecs.Codec): (b: Builder)
    ensures b.codec == codec
    ensures b.pixelFormat.None? && b.width.None? && b.height.None? && b.timeBase.None? && b.bitrate.None?
  {
    Builder(codec, None, None, None, None, None)
  }

  /** `EncoderBuilder::from_codec`: only a video encoder is accepted. */
  function FromCodec(codec: Codecs.Codec): (r: Result<Builder, Error>)
    ensures r.Ok? <==> codec.isEncoder && codec.mediaType == Video
    ensures !codec.isEncoder ==> r == Err(EncodingUnsupported(codec.id))
    ensures codec.isEncoder && codec.mediaType != Video ==> r == Err(MediaTypeMismatch(Video, codec.id))
    ensures r.Ok? ==> r.value == Fresh(codec)
  {
    match EncoderCommon.RequireIsEncoder(codec)
    case Err(err) => Err(err)
    case Ok(_) =>
      match EncoderCommon.RequireCodecType(Video, codec)
      case Err(err) => Err(err)
      case Ok(_) => Ok(Fresh(codec))
  }

  /** `width`: stored as `width as i32`. */
  function SetWidth(b: Builder, width: usize): (b': Builder)
    ensures b' == b.(width := Some(WrapI32(width)))
    ensures width <= I32_MAX ==> b'.width == Some(width)
  {
    b.(width := Some(WrapI32(width)))
  }

  /** `height`: stored as `height as i32`. */
  function SetHeight(b: Builder, height: usize): (b': Builder)
    ensures b' == b.(height := Some(WrapI32(height)))
    ensures height <= I32_MAX ==> b'.height == Some(height)
  {
    b.(height := Some(WrapI32(height)))
  }

  function SetPixelFormat(b: Builder, pixelFormat: PixelFormat): (b': Builder)
    ensures b'.pixelFormat == Some(pixelFormat) && b' == b.(pixelFormat := b'.pixelFormat)
  {
    b.(pixelFormat := Some(pixelFormat))
  }

  /** `framerate(f)`: the time base 1/f, the rate cast with `as i32`. */
  function Framerate(b: Builder, framerate: usize): (b': Builder)
    ensures b'.timeBase.Some? && b'.timeBase.value.num == 1 && b'.timeBase.value.den == WrapI32(framerate)
    ensures framerate <= I32_MAX ==> b'.timeBase == Some(Rational(1, framerate))
    ensures b' == b.(timeBase := b'.timeBase)
  {
    b.(timeBase := Some(Rational(1, WrapI32(framerate))))
  }

  /** `framerate_raw`: the time base exactly as given. */
  function FramerateRaw(b: Builder, raw: Rational): (b': Builder)
    ensures b'.timeBase == Some(raw) && b' == b.(timeBase := b'.timeBase)
  {
    b.(timeBase := Some(raw))
  }

  /** The time base `open` uses when none was set. */
  const DEFAULT_TIME_BASE: Rational := Rational(1, 30)

  /**
   * What `open` writes into a fresh context: `defaults` is the context
   * `avcodec_alloc_context3` returned, `formatFlags` the output format's.
   */
  function Configure(b: Builder, width: i32, height: i32, pixelFormat: PixelFormat, defaults: Context, formatFlags: Flags)
    : (ctx: Context)
    ensures ctx.codec == b.codec && ctx.codecId == b.codec.id
    ensures ctx.width == width && ctx.height == height && ctx.pixFmt == pixelFormat
    ensures ctx.bitRate == (if b.bitrate.Some? then b.bitrate.value else defaults.bitRate)
    ensures ctx.timeBase == (if b.timeBase.Some? then b.timeBase.value else DEFAULT_TIME_BASE)
    ensures ctx.flags == EncoderCommon.Init(formatFlags, defaults.flags)
  {
    var flagged := defaults.(flags := EncoderCommon.Init(formatFlags, defaults.flags));
    var withBitrate := if b.bitrate.Some? then flagged.(bitRate := b.bitrate.value) else flagged;
    withBitrate.(codec := b.codec, codecId := b.codec.id, width := width, height := height, pixFmt := pixelFormat,
                 timeBase := if b.timeBase.Some? then b.timeBase.value else DEFAULT_TIME_BASE)
  }

  /**
   * `EncoderBuilder::open`: the three required options are checked in
   * order, then the context is allocated (`defaults`, or `None` for a
   * null pointer), configured and opened (`openResult` is
   * `avcodec_open2`'s answer). The new encoder has no scaler and no
   * temporary frame.
   */
  function Open(b: Builder, formatFlags: Flags, defaults: Option<Context>, openResult: int): (r: Result<Encoder, Error>)
    ensures b.width.None? ==> r == Err(Msg("Video encoder width not set"))
    ensures b.width.Some? && b.height.None? ==> r == Err(Msg("Video encoder height not set"))
    ensures b.width.Some? && b.height.Some? && b.pixelFormat.None? ==> r == Err(Msg("Video encoder pixel_format not set"))
    ensures r.Ok? <==> b.width.Some? && b.height.Some? && b.pixelFormat.Some? && defaults.Some? && openResult >= 0
    ensures b.width.Some? && b.height.Some? && b.pixelFormat.Some? && defaults.None? ==>
      r == Err(Msg("Could not allocate an encoding context"))
    ensures b.width.Some? && b.height.Some? && b.pixelFormat.Some? && defaults.Some? && openResult < 0 ==>
      r == Err(OpenEncoder("video"))
    ensures r.Ok? ==> (r.value.scaler.None? && r.value.tmpFrame.None?
      && r.value.ctx == Configure(b, b.width.value, b.height.value, b.pixelFormat.value, defaults.value, formatFlags))
  {
    if b.width.None? then Err(Msg("Video encoder width not set"))
    else if b.height.None? then Err(Msg("Video encoder height not set"))
    else if b.pixelFormat.None? then Err(Msg("Video encoder pixel_format not set"))
    else if defaults.None? then Err(Msg("Could not allocate an encoding context"))
    else
      var ctx := Configure(b, b.width.value, b.height.value, b.pixelFormat.value, defaults.value, formatFlags);
      match EncoderCommon.Open(openResult, "video").result
      case Err(err) => Err(err)
      case Ok(_) => Ok(Encoder(ctx, None, None))
  }

  /**
   * A builder given a width, a height and a pixel format opens to an
   * encoder reporting them back, with the default time base of 1/30
   * when no frame rate was set.
   */
  lemma OpenReportsSettings(codec: Codecs.Codec, w: usize, h: usize, fmt: PixelFormat,
                            formatFlags: Flags, defaults: Context, openResult: int)
    requires w <= I32_MAX && h <= I32_MAX && openResult >= 0
    ensures var b := SetPixelFormat(SetHeight(SetWidth(Fresh(codec), w), h), fmt);
      var r := Open(b, formatFlags, Some(defaults), openResult);
      && r.Ok? && Width(r.value) == w && Height(r.value) == h && PixelFormat(r.value) == fmt
      && TimeBase(r.value) == DEFAULT_TIME_BASE && Valid(r.value)
  {
  }
}
