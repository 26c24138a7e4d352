/** `src/video/decoder.rs`: a video decoder and the iterator over its frames. */
module VideoDecoding {
  import opened Ints
  import opened Wrappers
  import opened Ffi
  import opened AvErrors
  import opened Timebases
  import opened MediaTypes
  import Codecs
  import Streams
  import VideoFrames
  import Draining

  /** The `AVCodecContext` fields the decoder reads. */
  datatype Context = Context(codec: Codecs.Codec, timeBase: Rational, pixFmt: PixelFormat)

  datatype Decoder = Decoder(ctx: Context)

  /** The `codecpar` fields the decoder looks at: the codec id and the format copied into the context. */
  datatype CodecParameters = CodecParameters(codecId: CodecId, format: PixelFormat)

  /** What `from_codec_parameters` returned, and whether it freed a context it had allocated. */
  datatype Built = Built(result: Result<Decoder, Error>, contextFreed: bool)

  /**
   * `from_codec_parameters`. `lookup` is `avcodec_find_decoder`'s answer,
   * `defaults` the allocated context (`None` for a null pointer),
   * `copyResult` what `avcodec_parameters_to_context` returned and
   * `openResult` what `avcodec_open2` returned. The checks run in that
   * order and each failure reports its own error; a context allocated
   * before a failure is freed.
   */
  function FromCodecParameters(params: CodecParameters, lookup: Option<Codecs.Codec>, defaults: Option<Context>,
                               copyResult: int, openResult: int): (b: Built)
    ensures lookup.None? ==> b == Built(Err(CodecNotFound("decoder", params.codecId)), false)
    ensures lookup.Some? && !lookup.value.mediaType.Video? ==>
      b == Built(Err(MediaTypeMismatch(Video, params.codecId)), false)
    ensures lookup.Some? && lookup.value.mediaType.Video? && defaults.None? ==>
      b == Built(Err(Msg("Could not allocate video decoder")), false)
    ensures lookup.Some? && lookup.value.mediaType.Video? && defaults.Some? && copyResult < 0 ==>
      b == Built(Err(CopyCodecParameters), true)
    ensures lookup.Some? && lookup.value.mediaType.Video? && defaults.Some? && copyResult >= 0 && openResult < 0 ==>
      b == Built(Err(OpenDecoder("video")), true)
    ensures b.result.Ok? <==>
      lookup.Some? && lookup.value.mediaType.Video? && defaults.Some? && copyResult >= 0 && openResult >= 0
    ensures b.result.Ok? ==> (!b.contextFreed
      && CodecOf(b.result.value) == lookup.value
      && PixelFormat(b.result.value) == params.format
      && TimeBase(b.result.value) == defaults.value.timeBase)
  {
    match Codecs.FindDecoderById(params.codecId, lookup)
    case Err(e) => Built(Err(e), false)
    case Ok(codec) =>
      if !codec.mediaType.Video? then Built(Err(MediaTypeMismatch(Video, params.codecId)), false)
      else if defaults.None? then Built(Err(Msg("Could not allocate video decoder")), false)
      else if copyResult < 0 then Built(Err(CopyCodecParameters), true)
      else if openResult < 0 then Built(Err(OpenDecoder("video")), true)
      else Built(Ok(Decoder(defaults.value.(codec := codec, pixFmt := params.format))), false)
  }

  /** A context is freed exactly when one was allocated and a later step failed. */
  lemma FreedIffAllocatedThenFailed(params: CodecParameters, lookup: Option<Codecs.Codec>, defaults: Option<Context>,
                                    copyResult: int, openResult: int)
    ensures FromCodecParameters(params, lookup, defaults, copyResult, openResult).contextFreed
      <==> (lookup.Some? && lookup.value.mediaType.Video? && defaults.Some? && (copyResult < 0 || openResult < 0))
  {
  }

  /** `from_stream`: the stream's codec parameters, its id among them. */
  function FromStream(s: Streams.Stream, format: PixelFormat, lookup: Option<Codecs.Codec>, defaults: Option<Context>,
                      copyResult: int, openResult: int): (b: Built)
    ensures b == FromCodecParameters(CodecParameters(s.codecId, format), lookup, defaults, copyResult, openResult)
    ensures lookup.Some? && !lookup.value.mediaType.Video? ==> b.result == Err(MediaTypeMismatch(Video, s.codecId))
  {
    FromCodecParameters(CodecParameters(s.codecId, format), lookup, defaults, copyResult, openResult)
  }

  function CodecOf(d: Decoder): Codecs.Codec { d.ctx.codec }
  function TimeBase(d: Decoder): Rational { d.ctx.timeBase }
  function PixelFormat(d: Decoder): PixelFormat { d.ctx.pixFmt }

  /** `Frames`: borrows the decoder until it is dropped. */
  datatype Frames = Frames(decoder: Decoder)

  /**
   * `decode`: `sendResult` is `avcodec_send_packet`'s answer. EAGAIN is
   * reported as an error of its own; EOF, like every other negative
   * code, is a failure to decode.
   */
  function Decode(d: Decoder, sendResult: int): (r: Result<Frames, Error>)
    ensures r.Ok? <==> sendResult >= 0
    ensures r.Ok? ==> r.value.decoder == d
    ensures sendResult == AVERROR_EAGAIN ==> r == Err(Msg("EAGAIN in Decoder::decode. This is not supposed to happen :("))
    ensures sendResult < 0 && sendResult != AVERROR_EAGAIN ==> r == Err(MsgWithCode("Failed to decode packet", sendResult))
  {
    if sendResult < 0 then
      if sendResult == AVERROR_EAGAIN then Err(Msg("EAGAIN in Decoder::decode. This is not supposed to happen :("))
      else Err(MsgWithCode("Failed to decode packet", sendResult))
    else Ok(Frames(d))
  }

  /** `flush`: sends the null packet; EAGAIN is tolerated here. */
  function Flush(d: Decoder, sendResult: int): (r: Result<Frames, Error>)
    ensures r.Ok? <==> sendResult >= 0 || sendResult == AVERROR_EAGAIN
    ensures r.Ok? ==> r.value.decoder == d
    ensures r.Err? ==> r.error == MsgWithCode("Failed to flush decoder", sendResult)
  {
    if sendResult < 0 && sendResult != AVERROR_EAGAIN then Err(MsgWithCode("Failed to flush decoder", sendResult))
    else Ok(Frames(d))
  }

  /** EAGAIN is the one code on which `decode` and `flush` disagree. */
  lemma DecodeAndFlushDifferOnlyOnEagain(d: Decoder, sendResult: int)
    ensures Decode(d, sendResult).Ok? != Flush(d, sendResult).Ok? <==> sendResult == AVERROR_EAGAIN
  {
  }

  /**
   * `Frames::next`: `code` is `avcodec_receive_frame`'s answer and
   * `received` the frame it filled; the frame is given the decoder's
   * pixel format.
   */
  function FramesNext(it: Frames, code: int, received: VideoFrames.Frame): (r: Option<Result<VideoFrames.Frame, Error>>)
    ensures r.None? <==> Draining.IsEnd(code)
    ensures r.Some? && r.value.Ok? <==> code >= 0
    ensures r.Some? && r.value.Ok? ==> r.value.value == received.(pixelFormat := PixelFormat(it.decoder))
    ensures r.Some? && r.value.Err? ==> r.value.error == MsgWithCode("Failed to receive frame", code)
  {
    Draining.Next(code, received.(pixelFormat := PixelFormat(it.decoder)), "Failed to receive frame")
  }
}
