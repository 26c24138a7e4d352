/**
 * The typed errors the binding returns (`errors::ErrorKind` plus plain
 * message errors). Messages are kept only where the code branches to a
 * distinct one; the rest carry the text the binding formats.
 */
module AvErrors {
  import MediaTypes
  import Ffi

  datatype Error =
    | Msg(text: string)
    /** A message formatted with a number: the FFmpeg return code that caused it, or a stream id. */
    | MsgWithCode(text: string, code: int)
    /** `Scale {side} dimension {width} x {height} invalid`. */
    | InvalidDimension(side: string, width: int, height: int)
    /** `Could not find {role} for {codec_id:?}`, the string a failed codec lookup returns. */
    | CodecNotFound(role: string, codecId: Ffi.CodecId)
    | EncodingUnsupported(codecId: Ffi.CodecId)
    | MediaTypeMismatch(expected: MediaTypes.MediaType, codecId: Ffi.CodecId)
    | OpenEncoder(kind: string)
    | OpenDecoder(kind: string)
    | CopyCodecParameters
    | AllocFailed(what: string)
    /** `Unsupported media type: {:?}`. */
    | UnsupportedMediaType(mediaType: MediaTypes.MediaType)
}
