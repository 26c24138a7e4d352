/**
 * Values of the FFmpeg constants the binding branches on. They come from
 * the FFmpeg headers the bindings are generated from (libavutil/error.h,
 * avio.h, avformat.h, avcodec.h, pixfmt.h, samplefmt.h,
 * channel_layout.h, swscale.h); those headers are not part of this model.
 * Pixel formats, sample formats and codec ids are plain C enum values.
 */
module Ffi {
  import opened Ints

  /** `AVERROR(EAGAIN)` with Linux's `EAGAIN == 11`. */
  const AVERROR_EAGAIN: int := -11
  /** `AVERROR_EOF == -MKTAG('E','O','F',' ')`. */
  const AVERROR_EOF: int := -0x2046_4F45

  const SEEK_SET: int := 0
  const SEEK_CUR: int := 1
  const SEEK_END: int := 2
  /** `whence` value asking a seek callback for the stream size. */
  const AVSEEK_SIZE: int := 0x1_0000

  /** Microseconds per second: the unit of a format context's `duration`. */
  const AV_TIME_BASE: int := 1_000_000

  const AVFMT_GLOBALHEADER: Flags := 0x40
  const AV_CODEC_FLAG_GLOBAL_HEADER: Flags := 0x40_0000
  const AV_CODEC_CAP_DELAY: Flags := 0x20

  const SWS_BICUBIC: int := 4

  type PixelFormat = int
  const AV_PIX_FMT_NONE: PixelFormat := -1
  const AV_PIX_FMT_RGB24: PixelFormat := 2

  type SampleFormat = int
  const AV_SAMPLE_FMT_S16: SampleFormat := 1

  /** `AV_CH_FRONT_LEFT | AV_CH_FRONT_RIGHT`. */
  const AV_CH_LAYOUT_STEREO: int := 3

  const FF_PROFILE_UNKNOWN: int := -99

  /** Slots of `AVFrame::data` and `AVFrame::linesize`. */
  const AV_NUM_DATA_POINTERS: nat := 8
  /** Planes a pixel format can have; the scaler pads its arrays to this. */
  const MAX_PLANES: nat := 4

  type CodecId = int
}
