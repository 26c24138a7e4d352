/** `src/scaler.rs`: a fixed-geometry wrapper around one `SwsContext`. */
module Scalers {
  import opened Ints
  import opened Wrappers
  import opened Ffi
  import VideoFrames

  /** The arguments `sws_getContext` receives (the filter and param pointers are always null). */
  datatype SwsRequest = SwsRequest(
    srcW: i32, srcH: i32, srcFmt: PixelFormat,
    dstW: i32, dstH: i32, dstFmt: PixelFormat,
    flags: int)

  /**
   * `sws_getContext` as seen by the binding: a context handle, with 0
   * standing for a null pointer.
   */
  type SwsGetContext = SwsRequest -> nat

  /** The request both scalers build: sizes cast with `as i32`, bicubic filtering. */
  function Request(srcW: usize, srcH: usize, srcFmt: PixelFormat,
                   dstW: usize, dstH: usize, dstFmt: PixelFormat): (q: SwsRequest)
    ensures q.flags == SWS_BICUBIC
    ensures q.srcFmt == srcFmt && q.dstFmt == dstFmt
    ensures srcW <= I32_MAX ==> q.srcW == srcW
    ensures srcH <= I32_MAX ==> q.srcH == srcH
    ensures dstW <= I32_MAX ==> q.dstW == dstW
    ensures dstH <= I32_MAX ==> q.dstH == dstH
  {
    SwsRequest(WrapI32(srcW), WrapI32(srcH), srcFmt, WrapI32(dstW), WrapI32(dstH), dstFmt, SWS_BICUBIC)
  }

  datatype Scaler = Scaler(
    context: nat,
    sourcePixelFormat: PixelFormat,
    targetPixelFormat: PixelFormat,
    sourceWidth: usize,
    sourceHeight: usize,
    targetWidth: usize,
    targetHeight: usize)

  /**
   * `Scaler::new`: fails exactly when the library hands back a null
   * context; otherwise the scaler remembers its arguments untouched.
   */
  function New(srcW: usize, srcH: usize, srcFmt: PixelFormat,
               dstW: usize, dstH: usize, dstFmt: PixelFormat,
               getContext: SwsGetContext): (r: Result<Scaler, string>)
    ensures r.Err? <==> getContext(Request(srcW, srcH, srcFmt, dstW, dstH, dstFmt)) == 0
    ensures r.Err? ==> r.error == "Could not create scaler context"
    ensures r.Ok? ==> r.value.context == getContext(Request(srcW, srcH, srcFmt, dstW, dstH, dstFmt))
  {
    var ctx := getContext(Request(srcW, srcH, srcFmt, dstW, dstH, dstFmt));
    if ctx == 0 then Err("Could not create scaler context")
    else Ok(Scaler(ctx, srcFmt, dstFmt, srcW, srcH, dstW, dstH))
  }

  function SourcePixelFormat(s: Scaler): PixelFormat { s.sourcePixelFormat }
  function SourceWidth(s: Scaler): usize { s.sourceWidth }
  function SourceHeight(s: Scaler): usize { s.sourceHeight }
  function TargetPixelFormat(s: Scaler): PixelFormat { s.targetPixelFormat }
  function TargetWidth(s: Scaler): usize { s.targetWidth }
  function TargetHeight(s: Scaler): usize { s.targetHeight }

  /** The six getters of a freshly built scaler return exactly the constructor's arguments. */
  lemma GettersReturnArguments(srcW: usize, srcH: usize, srcFmt: PixelFormat,
                               dstW: usize, dstH: usize, dstFmt: PixelFormat,
                               getContext: SwsGetContext)
    requires New(srcW, srcH, srcFmt, dstW, dstH, dstFmt, getContext).Ok?
    ensures var s := New(srcW, srcH, srcFmt, dstW, dstH, dstFmt, getContext).value;
      && SourceWidth(s) == srcW && SourceHeight(s) == srcH && SourcePixelFormat(s) == srcFmt
      && TargetWidth(s) == dstW && TargetHeight(s) == dstH && TargetPixelFormat(s) == dstFmt
  {
  }

  /** The arguments one `sws_scale` call receives, the plane pointers left out. */
  datatype SwsScaleCall = SwsScaleCall(
    context: nat,
    srcStride: seq<i32>,
    srcSliceY: i32,
    srcSliceH: i32,
    dstStride: seq<i32>)

  /**
   * `scale_frame`: one slice from row 0 over the source frame's full
   * height, with both frames' own strides. Nothing compares the frames
   * with the geometry the scaler was built for.
   */
  function ScaleFrame(s: Scaler, source: VideoFrames.Frame, target: VideoFrames.Frame): (call: SwsScaleCall)
    requires VideoFrames.Valid(source) && VideoFrames.Valid(target)
    ensures call.context == s.context
    ensures call.srcSliceY == 0 && call.srcSliceH == source.height
    ensures call.srcStride == source.linesize && call.dstStride == target.linesize
  {
    SwsScaleCall(s.context, source.linesize, 0, WrapI32(VideoFrames.Height(source)), target.linesize)
  }

  /** Scalers built for any geometry issue the same call for the same frames. */
  lemma ScaleFrameIgnoresGeometry(s: Scaler, t: Scaler, source: VideoFrames.Frame, target: VideoFrames.Frame)
    requires VideoFrames.Valid(source) && VideoFrames.Valid(target)
    requires s.context == t.context
    ensures ScaleFrame(s, source, target) == ScaleFrame(t, source, target)
  {
  }
}
