/** `src/codec/codec.rs`: a handle on a library `AVCodec`. */
module Codecs {
  import opened Ints
  import opened Wrappers
  import opened Ffi
  import opened MediaTypes
  import opened AvErrors
  import Sentinel

  /**
   * The fields of `AVCodec` the binding reads. `pixFmts` is the
   * `pix_fmts` pointer: `None` is NULL (audio codecs, or unknown), and a
   * non-null array ends with AV_PIX_FMT_NONE.
   */
  datatype Codec = Codec(
    id: CodecId,
    name: string,
    isEncoder: bool,
    isDecoder: bool,
    mediaType: MediaType,
    pixFmts: Option<seq<PixelFormat>>,
    capabilities: Flags)

  predicate IsNone(f: PixelFormat) { f == AV_PIX_FMT_NONE }

  /**
   * `find_encoder_by_id`: `lookup` is what `avcodec_find_encoder` returned.
   * The failure is the formatted string naming the requested id.
   */
  function FindEncoderById(codecId: CodecId, lookup: Option<Codec>): (r: Result<Codec, Error>)
    ensures r.Err? <==> lookup.None?
    ensures r.Err? ==> r.error == CodecNotFound("encoder", codecId)
    ensures r.Ok? ==> r.value == lookup.value
  {
    match lookup
    case Some(c) => Ok(c)
    case None => Err(CodecNotFound("encoder", codecId))
  }

  /**
   * `find_decoder_by_id`: `lookup` is what `avcodec_find_decoder` returned.
   * The failure is the formatted string naming the requested id.
   */
  function FindDecoderById(codecId: CodecId, lookup: Option<Codec>): (r: Result<Codec, Error>)
    ensures r.Err? <==> lookup.None?
    ensures r.Err? ==> r.error == CodecNotFound("decoder", codecId)
    ensures r.Ok? ==> r.value == lookup.value
  {
    match lookup
    case Some(c) => Ok(c)
    case None => Err(CodecNotFound("decoder", codecId))
  }

  function Name(c: Codec): string { c.name }

  /** `long_name` reads the `name` field, not `long_name`. */
  function LongName(c: Codec): (s: string)
    ensures s == Name(c)
  {
    c.name
  }

  /**
   * The scan of `pixel_formats`: count entries up to the first
   * AV_PIX_FMT_NONE and return that prefix.
   */
  method ScanPixelFormats(arr: seq<PixelFormat>) returns (fmts: seq<PixelFormat>)
    requires AV_PIX_FMT_NONE in arr
    ensures |fmts| < |arr| && fmts == arr[..|fmts|]
    ensures arr[|fmts|] == AV_PIX_FMT_NONE
    ensures AV_PIX_FMT_NONE !in fmts
    ensures fmts == Sentinel.PrefixBefore(arr, IsNone)
  {
    var len := 0;
    while arr[len] != AV_PIX_FMT_NONE
      invariant 0 <= len < |arr|
      invariant forall k :: 0 <= k < len ==> arr[k] != AV_PIX_FMT_NONE
      invariant AV_PIX_FMT_NONE in arr[len..]
      decreases |arr| - len
    {
      assert arr[len..] == [arr[len]] + arr[len + 1..];
      len := len + 1;
    }
    fmts := arr[..len];
    Sentinel.CleanPrefixIsPrefixBefore(arr, IsNone, len);
  }

  /**
   * `pixel_formats` as written: it dereferences `pix_fmts` without a
   * null check, so it is only defined for codecs with a format list.
   */
  method PixelFormatsAsWritten(c: Codec) returns (fmts: seq<PixelFormat>)
    requires c.pixFmts.Some? && AV_PIX_FMT_NONE in c.pixFmts.value
    ensures fmts == Sentinel.PrefixBefore(c.pixFmts.value, IsNone)
    ensures AV_PIX_FMT_NONE !in fmts
  {
    fmts := ScanPixelFormats(c.pixFmts.value);
  }

  /** An audio codec has no pixel-format list, so the as-written scan cannot be applied to it. */
  lemma AudioCodecBreaksPixelFormats()
    ensures var aac := Codec(86018, "aac", true, true, Audio, None, 0);
      !(aac.pixFmts.Some? && AV_PIX_FMT_NONE in aac.pixFmts.value)
  {
  }

  /** `pixel_formats` with the null check it evidently needs: NULL means no formats. */
  method PixelFormats(c: Codec) returns (fmts: seq<PixelFormat>)
    requires c.pixFmts.Some? ==> AV_PIX_FMT_NONE in c.pixFmts.value
    ensures c.pixFmts.None? ==> fmts == []
    ensures c.pixFmts.Some? ==> fmts == Sentinel.PrefixBefore(c.pixFmts.value, IsNone)
    ensures AV_PIX_FMT_NONE !in fmts
  {
    if c.pixFmts.None? {
      fmts := [];
    } else {
      fmts := ScanPixelFormats(c.pixFmts.value);
    }
  }
}
