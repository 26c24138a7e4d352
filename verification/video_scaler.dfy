/**
 * `src/video/scaler.rs`: a scaler that keeps one `SwsContext` and
 * rebuilds it only when the requested geometry changes.
 */
module VideoScaling {
  import opened Ints
  import opened Wrappers
  import opened Ffi
  import opened AvErrors
  import Scalers
  import VideoFrames

  /** The six parameters a context is built for. */
  datatype Geometry = Geometry(
    srcW: usize, srcH: usize, srcFmt: PixelFormat,
    dstW: usize, dstH: usize, dstFmt: PixelFormat)

  /** The cached context (a non-zero handle) and the parameters it was built for. */
  datatype Scaler = Scaler(context: Option<nat>, cached: Geometry)

  /** `Scaler::new`: no context yet, all sizes 0 and both formats RGB24. */
  function New(): (s: Scaler)
    ensures s.context.None?
    ensures s.cached.srcW == 0 && s.cached.srcH == 0 && s.cached.dstW == 0 && s.cached.dstH == 0
    ensures s.cached.srcFmt == AV_PIX_FMT_RGB24 && s.cached.dstFmt == AV_PIX_FMT_RGB24
  {
    Scaler(None, Geometry(0, 0, AV_PIX_FMT_RGB24, 0, 0, AV_PIX_FMT_RGB24))
  }

  /** The guard of `init_context`: no context, or any of the six parameters differs. */
  predicate NeedsRebuild(s: Scaler, g: Geometry)
  {
    || s.context.None?
    || s.cached.srcW != g.srcW || s.cached.dstW != g.dstW
    || s.cached.srcH != g.srcH || s.cached.dstH != g.dstH
    || s.cached.srcFmt != g.srcFmt || s.cached.dstFmt != g.dstFmt
  }

  /** A rebuild is needed exactly when there is no context or the cache differs from the request. */
  lemma NeedsRebuildIffStale(s: Scaler, g: Geometry)
    ensures NeedsRebuild(s, g) <==> s.context.None? || s.cached != g
  {
  }

  /**
   * `SwsContext::new`: both dimension pairs are checked (after the `as
   * i32` casts) before the library is asked; a null context is an error.
   */
  function SwsContextNew(q: Scalers.SwsRequest, getContext: Scalers.SwsGetContext): (r: Result<nat, Error>)
    ensures r.Ok? <==> q.srcW > 0 && q.srcH > 0 && q.dstW > 0 && q.dstH > 0 && getContext(q) != 0
    ensures (q.srcW <= 0 || q.srcH <= 0) ==> r == Err(InvalidDimension("source", q.srcW, q.srcH))
    ensures q.srcW > 0 && q.srcH > 0 && (q.dstW <= 0 || q.dstH <= 0) ==>
      r == Err(InvalidDimension("target", q.dstW, q.dstH))
    ensures r.Ok? ==> r.value == getContext(q)
  {
    if q.srcW <= 0 || q.srcH <= 0 then Err(InvalidDimension("source", q.srcW, q.srcH))
    else if q.dstW <= 0 || q.dstH <= 0 then Err(InvalidDimension("target", q.dstW, q.dstH))
    else
      var ctx := getContext(q);
      if ctx == 0 then Err(Msg("Could not create scaler context")) else Ok(ctx)
  }

  function RequestFor(g: Geometry): Scalers.SwsRequest
  {
    Scalers.Request(g.srcW, g.srcH, g.srcFmt, g.dstW, g.dstH, g.dstFmt)
  }

  /** The scaler after a call and what the call returned. */
  datatype Step<T> = Step(scaler: Scaler, result: Result<T, Error>)

  /**
   * `init_context`: reuse the cached context when nothing changed;
   * otherwise build a new one and, only if that succeeds, record the new
   * parameters. A failed build returns before anything is assigned.
   */
  function InitContext(s: Scaler, g: Geometry, getContext: Scalers.SwsGetContext): (st: Step<nat>)
    ensures !NeedsRebuild(s, g) ==> st.scaler == s && st.result == Ok(s.context.value)
    ensures NeedsRebuild(s, g) ==>
      (st.result.Ok? <==> SwsContextNew(RequestFor(g), getContext).Ok?)
    ensures st.result.Err? ==> st.scaler == s
    ensures st.result.Ok? ==> st.scaler.cached == g && st.scaler.context == Some(st.result.value)
  {
    if NeedsRebuild(s, g) then
      match SwsContextNew(RequestFor(g), getContext)
      case Err(e) => Step(s, Err(e))
      case Ok(ctx) => Step(Scaler(Some(ctx), g), Ok(ctx))
    else Step(s, Ok(s.context.value))
  }

  /** Once a context exists for `g`, asking again for `g` never consults the library. */
  lemma ReuseIgnoresLibrary(s: Scaler, g: Geometry, a: Scalers.SwsGetContext, b: Scalers.SwsGetContext)
    requires s.context.Some? && s.cached == g
    ensures InitContext(s, g, a) == InitContext(s, g, b)
    ensures InitContext(s, g, a).scaler == s
  {
  }

  /** `xs` padded with `fill` up to `n` entries; longer sequences are kept whole. */
  function Pad<T>(xs: seq<T>, fill: T, n: nat): (ys: seq<T>)
    ensures |ys| == if |xs| < n then n else |xs|
    ensures ys[..|xs|] == xs
    ensures forall i :: |xs| <= i < |ys| ==> ys[i] == fill
    decreases n - |xs|
  {
    if |xs| < n then Pad(xs + [fill], fill, n) else xs
  }

  /** The plane pointers and strides `sws_scale` receives; `None` is a null pointer. */
  datatype ScaleCall = ScaleCall(
    context: nat,
    srcData: seq<Option<seq<byte>>>,
    srcStride: seq<i32>,
    srcSliceY: i32,
    srcSliceH: i32,
    dstData: seq<Option<seq<byte>>>,
    dstStride: seq<i32>)

  /** What one side of `scale` is given. */
  datatype Side = Side(data: seq<seq<byte>>, linesize: seq<usize>, w: usize, h: usize, fmt: PixelFormat)

  /** `av_pix_fmt_count_planes` as seen by the binding. */
  type CountPlanes = PixelFormat -> int

  /** Every plane-size product the warning loop computes fits in `usize` (else it panics). */
  predicate ProductsFit(side: Side)
  {
    forall i :: 0 <= i < |side.data| && i < |side.linesize| ==> side.h * side.linesize[i] <= U64_MAX
  }

  /** The number of warnings the size loop prints for one side. */
  function Undersized(data: seq<seq<byte>>, linesize: seq<usize>, h: usize): (n: nat)
    ensures n <= |data| && n <= |linesize|
  {
    if |data| == 0 || |linesize| == 0 then 0
    else (if h * linesize[0] > |data[0]| then 1 else 0) + Undersized(data[1..], linesize[1..], h)
  }

  function Pointers(data: seq<seq<byte>>): (ps: seq<Option<seq<byte>>>)
    ensures |ps| == |data| && forall i :: 0 <= i < |data| ==> ps[i] == Some(data[i])
  {
    seq(|data|, i requires 0 <= i < |data| => Some(data[i]))
  }

  function Strides(linesize: seq<usize>): (ss: seq<i32>)
    ensures |ss| == |linesize| && forall i :: 0 <= i < |linesize| ==> ss[i] == WrapI32(linesize[i])
  {
    seq(|linesize|, i requires 0 <= i < |linesize| => WrapI32(linesize[i]))
  }

  /**
   * `ps` is what `sws_scale` receives for `data`: a pointer to every
   * plane, in order, then null pointers up to MAX_PLANES entries.
   */
  predicate PointersFor(ps: seq<Option<seq<byte>>>, data: seq<seq<byte>>)
  {
    && |ps| == (if |data| < MAX_PLANES then MAX_PLANES else |data|)
    && (forall i :: 0 <= i < |data| ==> ps[i] == Some(data[i]))
    && (forall i :: |data| <= i < |ps| ==> ps[i].None?)
  }

  /**
   * `ss` is what `sws_scale` receives for `linesize`: every line size
   * cast `as i32`, in order, then zeros up to MAX_PLANES entries.
   */
  predicate StridesFor(ss: seq<i32>, linesize: seq<usize>)
  {
    && |ss| == (if |linesize| < MAX_PLANES then MAX_PLANES else |linesize|)
    && (forall i :: 0 <= i < |linesize| ==> ss[i] == WrapI32(linesize[i]))
    && (forall i :: |linesize| <= i < |ss| ==> ss[i] == 0)
  }

  lemma PadPointers(data: seq<seq<byte>>)
    ensures PointersFor(Pad(Pointers(data), None, MAX_PLANES), data)
  {
  }

  lemma PadStrides(linesize: seq<usize>)
    ensures StridesFor(Pad(Strides(linesize), 0, MAX_PLANES), linesize)
  {
  }

  /**
   * What `scale` does after a context is available: the pixel-format
   * check, the source then target plane-count checks, then one
   * `sws_scale` call over the whole source height from row 0.
   */
  function ScaleWith(ctx: nat, src: Side, dst: Side, countPlanes: CountPlanes): (r: Result<ScaleCall, Error>)
    ensures r.Ok? <==>
      && countPlanes(src.fmt) > 0 && countPlanes(dst.fmt) > 0
      && |src.data| >= countPlanes(src.fmt) && |src.linesize| >= countPlanes(src.fmt)
      && |dst.data| >= countPlanes(dst.fmt) && |dst.linesize| >= countPlanes(dst.fmt)
    ensures (countPlanes(src.fmt) <= 0 || countPlanes(dst.fmt) <= 0) ==>
      r == Err(Msg("Invalid pixel format for scale source or target"))
    ensures (countPlanes(src.fmt) > 0 && countPlanes(dst.fmt) > 0
      && (|src.data| < countPlanes(src.fmt) || |src.linesize| < countPlanes(src.fmt))) ==>
      r == Err(Msg("Scale source has invalid number of planes"))
    ensures (countPlanes(src.fmt) > 0 && countPlanes(dst.fmt) > 0
      && |src.data| >= countPlanes(src.fmt) && |src.linesize| >= countPlanes(src.fmt)
      && (|dst.data| < countPlanes(dst.fmt) || |dst.linesize| < countPlanes(dst.fmt))) ==>
      r == Err(Msg("Scale target has invalid number of planes"))
    ensures r.Ok? ==> r.value.context == ctx && r.value.srcSliceY == 0 && r.value.srcSliceH == WrapI32(src.h)
    ensures r.Ok? ==> PointersFor(r.value.srcData, src.data) && StridesFor(r.value.srcStride, src.linesize)
    ensures r.Ok? ==> PointersFor(r.value.dstData, dst.data) && StridesFor(r.value.dstStride, dst.linesize)
  {
    var srcPlanes := countPlanes(src.fmt);
    var dstPlanes := countPlanes(dst.fmt);
    if srcPlanes <= 0 || dstPlanes <= 0 then Err(Msg("Invalid pixel format for scale source or target"))
    else if |src.data| < srcPlanes || |src.linesize| < srcPlanes then Err(Msg("Scale source has invalid number of planes"))
    else if |dst.data| < dstPlanes || |dst.linesize| < dstPlanes then Err(Msg("Scale target has invalid number of planes"))
    else
      PadPointers(src.data); PadStrides(src.linesize);
      PadPointers(dst.data); PadStrides(dst.linesize);
      Ok(ScaleCall(ctx,
        Pad(Pointers(src.data), None, MAX_PLANES), Pad(Strides(src.linesize), 0, MAX_PLANES),
        0, WrapI32(src.h),
        Pad(Pointers(dst.data), None, MAX_PLANES), Pad(Strides(dst.linesize), 0, MAX_PLANES)))
  }

  /** The geometry `scale` asks `init_context` for. */
  function GeometryOf(src: Side, dst: Side): Geometry
  {
    Geometry(src.w, src.h, src.fmt, dst.w, dst.h, dst.fmt)
  }

  /**
   * Whether `scale` gets as far as the plane-size loop: the context is
   * available and both plane checks pass. Only then can a size product
   * overflow.
   */
  predicate ReachesSizeLoop(s: Scaler, src: Side, dst: Side, countPlanes: CountPlanes, getContext: Scalers.SwsGetContext)
  {
    && InitContext(s, GeometryOf(src, dst), getContext).result.Ok?
    && countPlanes(src.fmt) > 0 && countPlanes(dst.fmt) > 0
    && |src.data| >= countPlanes(src.fmt) && |src.linesize| >= countPlanes(src.fmt)
    && |dst.data| >= countPlanes(dst.fmt) && |dst.linesize| >= countPlanes(dst.fmt)
  }

  /** The printed warnings and what `scale` returns. */
  datatype Outcome = Outcome(step: Step<ScaleCall>, warnings: seq<string>)

  /**
   * `scale`: `init_context` first, so a geometry or context failure
   * comes first and a plane-count failure can follow a rebuild; then
   * the plane checks; then one warning per undersized plane (never an
   * error); then the call with every array padded to MAX_PLANES.
   */
  function Scale(s: Scaler, src: Side, dst: Side, countPlanes: CountPlanes, getContext: Scalers.SwsGetContext): (o: Outcome)
    requires ReachesSizeLoop(s, src, dst, countPlanes, getContext) ==> ProductsFit(src) && ProductsFit(dst)
    ensures var init := InitContext(s, GeometryOf(src, dst), getContext);
      && o.step.scaler == init.scaler
      && (init.result.Err? ==> o.step.result == Err(init.result.error) && o.warnings == [])
      && (init.result.Ok? ==> o.step.result == ScaleWith(init.result.value, src, dst, countPlanes))
    ensures o.step.result.Ok? ==>
      && |o.warnings| == Undersized(src.data, src.linesize, src.h) + Undersized(dst.data, dst.linesize, dst.h)
      && |o.step.result.value.srcData| >= MAX_PLANES && |o.step.result.value.dstStride| >= MAX_PLANES
      && o.step.result.value.srcSliceY == 0
  {
    var init := InitContext(s, GeometryOf(src, dst), getContext);
    if init.result.Err? then Outcome(Step(init.scaler, Err(init.result.error)), [])
    else
      var r := ScaleWith(init.result.value, src, dst, countPlanes);
      var warnings := if r.Ok? then
          seq(Undersized(src.data, src.linesize, src.h), _ => "Source plane data too small")
          + seq(Undersized(dst.data, dst.linesize, dst.h), _ => "Target plane data too small")
        else [];
      Outcome(Step(init.scaler, r), warnings)
  }

  /**
   * Whether `scale` succeeds does not depend on how big the planes are,
   * only on how many there are: undersized planes are warned about and
   * passed on.
   */
  lemma PlaneSizesNeverFail(s: Scaler, src: Side, dst: Side, src2: Side, dst2: Side,
                            countPlanes: CountPlanes, getContext: Scalers.SwsGetContext)
    requires ProductsFit(src) && ProductsFit(dst) && ProductsFit(src2) && ProductsFit(dst2)
    requires src2 == src.(data := src2.data) && |src2.data| == |src.data|
    requires dst2 == dst.(data := dst2.data) && |dst2.data| == |dst.data|
    ensures Scale(s, src, dst, countPlanes, getContext).step.result.Ok?
        == Scale(s, src2, dst2, countPlanes, getContext).step.result.Ok?
    ensures Scale(s, src, dst, countPlanes, getContext).step.scaler
        == Scale(s, src2, dst2, countPlanes, getContext).step.scaler
  {
  }

  /**
   * The cache follows the request even when `scale` then fails on the
   * plane counts: the context was rebuilt before they were checked.
   */
  lemma PlaneFailureAfterRebuild(s: Scaler, src: Side, dst: Side, countPlanes: CountPlanes, getContext: Scalers.SwsGetContext)
    requires ProductsFit(src) && ProductsFit(dst)
    requires SwsContextNew(RequestFor(GeometryOf(src, dst)), getContext).Ok?
    requires countPlanes(src.fmt) <= 0
    ensures Scale(s, src, dst, countPlanes, getContext).step.result
         == Err(Msg("Invalid pixel format for scale source or target"))
    ensures Scale(s, src, dst, countPlanes, getContext).step.scaler.cached == GeometryOf(src, dst)
  {
  }

  /**
   * A format with planes but no plane slices (the `not_enough_planes`
   * case): the context is rebuilt and recorded first, then the source
   * plane check fails.
   */
  lemma MissingPlanesFailAfterRebuild(s: Scaler, src: Side, dst: Side, countPlanes: CountPlanes, getContext: Scalers.SwsGetContext)
    requires src.data == [] && ProductsFit(dst)
    requires SwsContextNew(RequestFor(GeometryOf(src, dst)), getContext).Ok?
    requires countPlanes(src.fmt) >= 1 && countPlanes(dst.fmt) >= 1
    ensures Scale(s, src, dst, countPlanes, getContext).step.result == Err(Msg("Scale source has invalid number of planes"))
    ensures Scale(s, src, dst, countPlanes, getContext).step.scaler.cached == GeometryOf(src, dst)
    ensures Scale(s, src, dst, countPlanes, getContext).warnings == []
  {
  }

  /** A failed rebuild keeps the previous context and parameters. */
  lemma FailedRebuildKeepsState(s: Scaler, src: Side, dst: Side, countPlanes: CountPlanes, getContext: Scalers.SwsGetContext)
    requires ProductsFit(src) && ProductsFit(dst)
    requires NeedsRebuild(s, GeometryOf(src, dst))
    requires SwsContextNew(RequestFor(GeometryOf(src, dst)), getContext).Err?
    ensures Scale(s, src, dst, countPlanes, getContext).step.scaler == s
    ensures Scale(s, src, dst, countPlanes, getContext).step.result.Err?
  {
  }

  /** `n` calls of `scale` with the same arguments; the scaler after them. */
  function ScaleRepeatedly(s: Scaler, src: Side, dst: Side, countPlanes: CountPlanes, getContext: Scalers.SwsGetContext,
                           n: nat): Scaler
    requires ProductsFit(src) && ProductsFit(dst)
    decreases n
  {
    if n == 0 then s
    else ScaleRepeatedly(Scale(s, src, dst, countPlanes, getContext).step.scaler, src, dst, countPlanes, getContext, n - 1)
  }

  /**
   * After one successful `scale`, any number of further identical calls
   * reuse the same context: the scaler state never changes again, and
   * each of them succeeds with the same call.
   */
  lemma {:induction false} RepeatedScaleReusesContext(s: Scaler, src: Side, dst: Side,
                                                      countPlanes: CountPlanes, getContext: Scalers.SwsGetContext, n: nat)
    requires ProductsFit(src) && ProductsFit(dst)
    requires Scale(s, src, dst, countPlanes, getContext).step.result.Ok?
    ensures var s1 := Scale(s, src, dst, countPlanes, getContext).step.scaler;
      && ScaleRepeatedly(s1, src, dst, countPlanes, getContext, n) == s1
      && Scale(s1, src, dst, countPlanes, getContext).step == Step(s1, Scale(s, src, dst, countPlanes, getContext).step.result)
  {
    var s1 := Scale(s, src, dst, countPlanes, getContext).step.scaler;
    assert s1.context.Some? && s1.cached == GeometryOf(src, dst);
    assert Scale(s1, src, dst, countPlanes, getContext).step.scaler == s1;
    if n > 0 {
      RepeatedFromCached(s1, src, dst, countPlanes, getContext, n - 1);
    }
  }

  lemma {:induction false} RepeatedFromCached(s1: Scaler, src: Side, dst: Side,
                                              countPlanes: CountPlanes, getContext: Scalers.SwsGetContext, n: nat)
    requires ProductsFit(src) && ProductsFit(dst)
    requires s1.context.Some? && s1.cached == GeometryOf(src, dst)
    ensures ScaleRepeatedly(s1, src, dst, countPlanes, getContext, n) == s1
  {
    assert Scale(s1, src, dst, countPlanes, getContext).step.scaler == s1;
    if n > 0 {
      RepeatedFromCached(s1, src, dst, countPlanes, getContext, n - 1);
    }
  }

  /** One side of `scale_frame`: the frame's first `numPlanes` channels, its `linesizes`, sizes and format. */
  function FrameSide(f: VideoFrames.Frame, numPlanes: int): Side
    requires VideoFrames.Valid(f) && 0 <= numPlanes <= AV_NUM_DATA_POINTERS
  {
    Side(VideoFrames.Data(f, numPlanes), VideoFrames.Linesizes(f), VideoFrames.Width(f), VideoFrames.Height(f), f.pixelFormat)
  }

  /** The geometry `scale_frame` asks for: both frames' sizes and formats. */
  function FrameGeometry(src: VideoFrames.Frame, dst: VideoFrames.Frame): Geometry
  {
    Geometry(VideoFrames.Width(src), VideoFrames.Height(src), src.pixelFormat,
             VideoFrames.Width(dst), VideoFrames.Height(dst), dst.pixelFormat)
  }

  /** Planes holding at least `h` rows each give no size warning. */
  lemma {:induction false} LargeEnoughPlanesNeverWarn(data: seq<seq<byte>>, linesize: seq<usize>, h: usize)
    requires forall i :: 0 <= i < |data| && i < |linesize| ==> h * linesize[i] <= |data[i]|
    ensures Undersized(data, linesize, h) == 0
  {
    if |data| > 0 && |linesize| > 0 {
      forall i | 0 <= i < |data[1..]| && i < |linesize[1..]|
        ensures h * linesize[1..][i] <= |data[1..][i]|
      {
        assert data[1..][i] == data[i + 1] && linesize[1..][i] == linesize[i + 1];
      }
      LargeEnoughPlanesNeverWarn(data[1..], linesize[1..], h);
    }
  }

  /**
   * A frame's side never overflows the size products (both factors are
   * `i32` values) and never draws a warning: channel `i` holds exactly
   * `height * linesize[i]` bytes.
   */
  lemma FrameSideFits(f: VideoFrames.Frame, numPlanes: int)
    requires VideoFrames.Valid(f) && 0 <= numPlanes <= AV_NUM_DATA_POINTERS
    ensures ProductsFit(FrameSide(f, numPlanes))
    ensures Undersized(FrameSide(f, numPlanes).data, FrameSide(f, numPlanes).linesize, FrameSide(f, numPlanes).h) == 0
  {
    var side := FrameSide(f, numPlanes);
    assert side.h == f.height;
    forall i | 0 <= i < |side.data| && i < |side.linesize|
      ensures side.h * side.linesize[i] <= U64_MAX
      ensures side.h * side.linesize[i] <= |side.data[i]|
    {
      var l := side.linesize[i];
      assert l == f.linesize[i] && l <= I32_MAX;
      VideoFrames.MulMonotone(f.height, I32_MAX, l);
      VideoFrames.MulMonotone(l, I32_MAX, I32_MAX);
      assert l * I32_MAX == I32_MAX * l;
    }
    LargeEnoughPlanesNeverWarn(side.data, side.linesize, side.h);
  }

  /**
   * `scale_frame`: `scale` on the two frames, each contributing as many
   * channels as `av_pix_fmt_count_planes` gives for its format (a
   * negative count or one past the 8 data slots panics in `data`).
   * Frame channels are always big enough, so nothing is printed; the
   * plane-count check can only fail for a format with more planes than
   * the four `linesizes`.
   */
  function ScaleFrame(s: Scaler, src: VideoFrames.Frame, dst: VideoFrames.Frame,
                      countPlanes: CountPlanes, getContext: Scalers.SwsGetContext): (o: Outcome)
    requires VideoFrames.Valid(src) && VideoFrames.Valid(dst)
    requires 0 <= countPlanes(src.pixelFormat) <= AV_NUM_DATA_POINTERS
    requires 0 <= countPlanes(dst.pixelFormat) <= AV_NUM_DATA_POINTERS
    ensures o.warnings == []
    ensures InitContext(s, FrameGeometry(src, dst), getContext).result.Err? ==>
      o.step == Step(s, Err(InitContext(s, FrameGeometry(src, dst), getContext).result.error))
    ensures o.step.result.Ok? <==>
      && InitContext(s, FrameGeometry(src, dst), getContext).result.Ok?
      && 0 < countPlanes(src.pixelFormat) <= MAX_PLANES && 0 < countPlanes(dst.pixelFormat) <= MAX_PLANES
    ensures o.step.result.Ok? ==>
      && o.step.scaler.cached == FrameGeometry(src, dst)
      && o.step.scaler.context == Some(o.step.result.value.context)
      && o.step.result.value.srcSliceH == WrapI32(VideoFrames.Height(src))
    ensures o.step.result.Ok? ==>
      && PointersFor(o.step.result.value.srcData, VideoFrames.Data(src, countPlanes(src.pixelFormat)))
      && PointersFor(o.step.result.value.dstData, VideoFrames.Data(dst, countPlanes(dst.pixelFormat)))
      && StridesFor(o.step.result.value.srcStride, VideoFrames.Linesizes(src))
      && StridesFor(o.step.result.value.dstStride, VideoFrames.Linesizes(dst))
  {
    var srcSide := FrameSide(src, countPlanes(src.pixelFormat));
    var dstSide := FrameSide(dst, countPlanes(dst.pixelFormat));
    FrameSideFits(src, countPlanes(src.pixelFormat));
    FrameSideFits(dst, countPlanes(dst.pixelFormat));
    assert GeometryOf(srcSide, dstSide) == FrameGeometry(src, dst);
    Scale(s, srcSide, dstSide, countPlanes, getContext)
  }

  /**
   * Scaling the same pair of frames again after a success reuses the
   * recorded context: the scaler does not change and the same call is made.
   */
  lemma ScaleFrameAgainReuses(s: Scaler, src: VideoFrames.Frame, dst: VideoFrames.Frame,
                              countPlanes: CountPlanes, getContext: Scalers.SwsGetContext, other: Scalers.SwsGetContext)
    requires VideoFrames.Valid(src) && VideoFrames.Valid(dst)
    requires 0 <= countPlanes(src.pixelFormat) <= AV_NUM_DATA_POINTERS
    requires 0 <= countPlanes(dst.pixelFormat) <= AV_NUM_DATA_POINTERS
    requires ScaleFrame(s, src, dst, countPlanes, getContext).step.result.Ok?
    ensures var s1 := ScaleFrame(s, src, dst, countPlanes, getContext).step.scaler;
      ScaleFrame(s1, src, dst, countPlanes, other).step
        == Step(s1, ScaleFrame(s, src, dst, countPlanes, getContext).step.result)
  {
    var s1 := ScaleFrame(s, src, dst, countPlanes, getContext).step.scaler;
    assert !NeedsRebuild(s1, FrameGeometry(src, dst));
  }
}
