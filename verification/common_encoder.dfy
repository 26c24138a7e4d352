/** `src/common/encoder.rs`: checks and set-up shared by the audio and video encoders. */
module EncoderCommon {
  import opened Ints
  import opened Wrappers
  import opened Ffi
  import opened MediaTypes
  import opened AvErrors
  import Codecs

  /**
   * `init`: the codec context flags after set-up for an output format
   * with flags `formatFlags`.
   */
  function Init(formatFlags: Flags, contextFlags: Flags): (flags: Flags)
    ensures HasFlag(formatFlags, AVFMT_GLOBALHEADER) ==> flags == contextFlags | AV_CODEC_FLAG_GLOBAL_HEADER
    ensures !HasFlag(formatFlags, AVFMT_GLOBALHEADER) ==> flags == contextFlags
  {
    if HasFlag(formatFlags, AVFMT_GLOBALHEADER) then contextFlags | AV_CODEC_FLAG_GLOBAL_HEADER
    else contextFlags
  }

  /**
   * `init` only adds: every flag already set stays set, and afterwards the
   * context has GLOBAL_HEADER exactly when it had it before or the format
   * asks for global headers.
   */
  lemma InitOnlyAdds(formatFlags: Flags, contextFlags: Flags, mask: Flags)
    ensures HasFlag(contextFlags, mask) ==> HasFlag(Init(formatFlags, contextFlags), mask)
    ensures HasFlag(Init(formatFlags, contextFlags), AV_CODEC_FLAG_GLOBAL_HEADER)
      <==> HasFlag(contextFlags, AV_CODEC_FLAG_GLOBAL_HEADER) || HasFlag(formatFlags, AVFMT_GLOBALHEADER)
  {
  }

  /** The result of `open` and whether it freed the codec context. */
  datatype Opened = Opened(result: Result<(), Error>, contextFreed: bool)

  /** `open`: `openResult` is what `avcodec_open2` returned. */
  function Open(openResult: int, kind: string): (o: Opened)
    ensures o.result.Err? <==> openResult < 0
    ensures o.result.Err? ==> o.result.error == OpenEncoder(kind) && o.contextFreed
    ensures o.result.Ok? ==> !o.contextFreed
  {
    if openResult < 0 then Opened(Err(OpenEncoder(kind)), true) else Opened(Ok(()), false)
  }

  /** `require_is_encoder`. */
  function RequireIsEncoder(codec: Codecs.Codec): (r: Result<(), Error>)
    ensures r.Ok? <==> codec.isEncoder
    ensures r.Err? ==> r.error == EncodingUnsupported(codec.id)
  {
    if !codec.isEncoder then Err(EncodingUnsupported(codec.id)) else Ok(())
  }

  /** `require_codec_type`. */
  function RequireCodecType(encoderType: MediaType, codec: Codecs.Codec): (r: Result<(), Error>)
    ensures r.Ok? <==> encoderType == codec.mediaType
    ensures r.Err? ==> r.error == MediaTypeMismatch(encoderType, codec.id)
  {
    if encoderType != codec.mediaType then Err(MediaTypeMismatch(encoderType, codec.id)) else Ok(())
  }
}
