/** `src/video/frame.rs`: an owned video `AVFrame`. */
module VideoFrames {
  import opened Ints
  import opened Wrappers
  import opened Ffi
  import opened AvErrors

  /**
   * A video frame as the binding sees it: the pixel format it remembers,
   * the `AVFrame` fields it reads, and the buffer behind each `data[i]`.
   */
  datatype Frame = Frame(
    pixelFormat: PixelFormat,
    width: i32,
    height: i32,
    pts: i64,
    linesize: seq<i32>,
    planes: seq<seq<byte>>)

  /**
   * What `av_frame_get_buffer` guarantees: every slot exists, no size is
   * negative, and plane i holds at least `height * linesize[i]` bytes.
   */
  predicate Valid(f: Frame)
  {
    && |f.linesize| == AV_NUM_DATA_POINTERS
    && |f.planes| == AV_NUM_DATA_POINTERS
    && f.width >= 0 && f.height >= 0
    && forall i :: 0 <= i < AV_NUM_DATA_POINTERS ==> f.linesize[i] >= 0 && |f.planes[i]| >= f.height * f.linesize[i]
  }

  /** The linesizes and buffers `av_frame_get_buffer` hands out. */
  datatype Buffer = Buffer(linesize: seq<i32>, planes: seq<seq<byte>>)

  /**
   * `Frame::new`. `frameAllocated` says whether `av_frame_alloc` returned a
   * frame, `getBuffer` is the return code of `av_frame_get_buffer` and
   * `buffer` what it allocated. The three size asserts are panics.
   */
  function New(width: usize, height: usize, pixelFormat: PixelFormat, align: usize,
               frameAllocated: bool, getBuffer: int, buffer: Buffer): (r: Result<Frame, Error>)
    requires width <= I32_MAX && height <= I32_MAX && align <= I32_MAX
    requires getBuffer >= 0 ==> Valid(Frame(pixelFormat, width, height, 0, buffer.linesize, buffer.planes))
    ensures r.Ok? <==> frameAllocated && getBuffer >= 0
    ensures !frameAllocated ==> r == Err(Msg("Could not allocate video frame"))
    ensures frameAllocated && getBuffer < 0 ==> r == Err(MsgWithCode("Could not allocate video frame buffer", getBuffer))
    ensures r.Ok? ==> (Valid(r.value) && r.value.pts == 0 && r.value.pixelFormat == pixelFormat
      && Width(r.value) == width && Height(r.value) == height)
  {
    if !frameAllocated then Err(Msg("Could not allocate video frame"))
    else if getBuffer < 0 then Err(MsgWithCode("Could not allocate video frame buffer", getBuffer))
    else Ok(Frame(pixelFormat, width, height, 0, buffer.linesize, buffer.planes))
  }

  function Width(f: Frame): usize { WrapUsize(f.width) }

  function Height(f: Frame): usize { WrapUsize(f.height) }

  /** `linesize(channel)`: indexing past the 8 slots panics. */
  function Linesize(f: Frame, channel: nat): usize
    requires Valid(f) && channel < AV_NUM_DATA_POINTERS
  {
    WrapUsize(f.linesize[channel])
  }

  /** `linesizes`: the first MAX_PLANES linesizes, in plane order. */
  function Linesizes(f: Frame): (ls: seq<usize>)
    requires Valid(f)
    ensures |ls| == MAX_PLANES
    ensures forall i :: 0 <= i < MAX_PLANES ==> ls[i] == f.linesize[i]
  {
    seq(MAX_PLANES, i requires 0 <= i < MAX_PLANES => Linesize(f, i))
  }

  function Pts(f: Frame): i64 { f.pts }

  function SetPts(f: Frame, pts: i64): (g: Frame)
    ensures Pts(g) == pts
    ensures g == f.(pts := pts)
  {
    f.(pts := pts)
  }

  /** `set_pts` changes nothing but the pts, and a later `set_pts` wins. */
  lemma SetPtsKeepsRest(f: Frame, p: i64, q: i64)
    ensures SetPts(f, p).planes == f.planes && SetPts(f, p).linesize == f.linesize
    ensures SetPts(f, p).pixelFormat == f.pixelFormat && Width(SetPts(f, p)) == Width(f)
    ensures SetPts(SetPts(f, p), q) == SetPts(f, q)
  {
  }

  /** `channel(i)`: the first `height * linesize(i)` bytes of plane i. */
  function Channel(f: Frame, i: nat): (c: seq<byte>)
    requires Valid(f) && i < AV_NUM_DATA_POINTERS
    ensures |c| == f.height * f.linesize[i]
    ensures c == f.planes[i][..|c|]
  {
    f.planes[i][..f.height * f.linesize[i]]
  }

  /**
   * `data`: one channel per plane of the pixel format. `numPlanes` is
   * what `av_pix_fmt_count_planes` returned; a negative count panics.
   */
  function Data(f: Frame, numPlanes: int): (d: seq<seq<byte>>)
    requires Valid(f)
    requires 0 <= numPlanes <= AV_NUM_DATA_POINTERS
    ensures |d| == numPlanes
    ensures forall i :: 0 <= i < numPlanes ==> d[i] == Channel(f, i) && |d[i]| == f.height * f.linesize[i]
  {
    seq(numPlanes, i requires 0 <= i < numPlanes => Channel(f, i))
  }

  /** `is_compatible_with_encoder`: the encoder's format and size, as its getters report them. */
  predicate IsCompatibleWithEncoder(f: Frame, encoderPixelFormat: PixelFormat, encoderWidth: usize, encoderHeight: usize)
  {
    f.pixelFormat == encoderPixelFormat && Width(f) == encoderWidth && Height(f) == encoderHeight
  }

  /**
   * Row `k` of a filled channel: the first `copied` bytes of source row
   * `k` (rows of `sourceLinesize` bytes), then the rest of target row `k`
   * unchanged. The bounds are part of the statement.
   */
  predicate RowFilled(rows: seq<byte>, target: seq<byte>, source: seq<byte>,
                      targetLinesize: nat, sourceLinesize: nat, copied: nat, k: nat)
  {
    && copied <= targetLinesize
    && k * targetLinesize + targetLinesize <= |rows|
    && k * targetLinesize + targetLinesize <= |target|
    && k * sourceLinesize + copied <= |source|
    && rows[k * targetLinesize .. k * targetLinesize + targetLinesize]
       == source[k * sourceLinesize .. k * sourceLinesize + copied]
          + target[k * targetLinesize + copied .. k * targetLinesize + targetLinesize]
  }

  lemma MulMonotone(a: nat, b: nat, c: nat)
    requires a <= b
    ensures a * c <= b * c
  {
    assert b * c == a * c + (b - a) * c;
  }

  lemma SliceOfPrefix(a: seq<byte>, b: seq<byte>, lo: nat, hi: nat)
    requires lo <= hi <= |a|
    ensures (a + b)[lo..hi] == a[lo..hi]
  {
  }

  /** Bytes appended to a sequence sit right after it. */
  lemma PlaceAfter(rows: seq<byte>, line: seq<byte>)
    ensures (rows + line)[|rows| .. |rows| + |line|] == line
  {
  }

  /** A row already filled stays filled when more bytes are appended. */
  lemma KeepRow(rows: seq<byte>, line: seq<byte>, target: seq<byte>, source: seq<byte>,
                targetLinesize: nat, sourceLinesize: nat, copied: nat, k: nat)
    requires RowFilled(rows, target, source, targetLinesize, sourceLinesize, copied, k)
    ensures RowFilled(rows + line, target, source, targetLinesize, sourceLinesize, copied, k)
  {
    var lo := k * targetLinesize;
    var hi := lo + targetLinesize;
    SliceOfPrefix(rows, line, lo, hi);
    assert (rows + line)[lo..hi] == rows[lo..hi];
  }

  /** Row `r` of a `height`-row layout lies inside both buffers. */
  lemma RowInBounds(target: seq<byte>, source: seq<byte>, targetLinesize: nat, sourceLinesize: nat,
                    copied: nat, r: nat, height: nat)
    requires r < height && copied <= sourceLinesize
    requires |target| == height * targetLinesize && height * sourceLinesize <= |source|
    ensures r * sourceLinesize + copied <= |source|
    ensures r * targetLinesize + targetLinesize <= |target|
  {
    MulMonotone(r + 1, height, sourceLinesize);
    MulMonotone(r + 1, height, targetLinesize);
  }

  /** Appending the next filled row keeps every earlier row and fills row `r`. */
  lemma AppendRow(rows: seq<byte>, target: seq<byte>, source: seq<byte>,
                  targetLinesize: nat, sourceLinesize: nat, copied: nat, r: nat, height: nat)
    requires r < height && copied <= targetLinesize && copied <= sourceLinesize
    requires |target| == height * targetLinesize && height * sourceLinesize <= |source|
    requires |rows| == r * targetLinesize
    requires forall k :: 0 <= k < r ==> RowFilled(rows, target, source, targetLinesize, sourceLinesize, copied, k)
    ensures r * sourceLinesize + copied <= |source|
    ensures r * targetLinesize + targetLinesize <= |target|
    ensures var next := rows + source[r * sourceLinesize .. r * sourceLinesize + copied]
        + target[r * targetLinesize + copied .. r * targetLinesize + targetLinesize];
      && |next| == r * targetLinesize + targetLinesize
      && forall k :: 0 <= k < r + 1 ==> RowFilled(next, target, source, targetLinesize, sourceLinesize, copied, k)
  {
    RowInBounds(target, source, targetLinesize, sourceLinesize, copied, r, height);
    var line := source[r * sourceLinesize .. r * sourceLinesize + copied]
      + target[r * targetLinesize + copied .. r * targetLinesize + targetLinesize];
    forall k | 0 <= k < r
      ensures RowFilled(rows + line, target, source, targetLinesize, sourceLinesize, copied, k)
    {
      KeepRow(rows, line, target, source, targetLinesize, sourceLinesize, copied, k);
    }
    PlaceAfter(rows, line);
    assert rows + line == rows + source[r * sourceLinesize .. r * sourceLinesize + copied]
      + target[r * targetLinesize + copied .. r * targetLinesize + targetLinesize];
  }

  /**
   * The loop of `fill_channel`: cut the source into rows of
   * `|source| / height` bytes and the target channel into rows of
   * `targetLinesize` bytes, and copy the shorter row length of each source
   * row over the start of the matching target row.
   * `height == 0` divides by zero, `|source| < height` and
   * `targetLinesize == 0` make `chunks` panic.
   */
  method FillRows(target: seq<byte>, targetLinesize: nat, height: nat, source: seq<byte>)
    returns (rows: seq<byte>)
    requires height > 0 && |source| >= height && targetLinesize > 0
    requires |target| == height * targetLinesize
    ensures |rows| == |target|
    ensures var sourceLinesize := |source| / height;
      var copied := if sourceLinesize < targetLinesize then sourceLinesize else targetLinesize;
      forall k :: 0 <= k < height ==> RowFilled(rows, target, source, targetLinesize, sourceLinesize, copied, k)
  {
    var sourceLinesize := |source| / height;
    var copied := if sourceLinesize < targetLinesize then sourceLinesize else targetLinesize;
    assert height * sourceLinesize <= |source|;
    rows := [];
    var r := 0;
    while r < height
      invariant r <= height
      invariant |rows| == r * targetLinesize
      invariant forall k :: 0 <= k < r ==> RowFilled(rows, target, source, targetLinesize, sourceLinesize, copied, k)
    {
      AppendRow(rows, target, source, targetLinesize, sourceLinesize, copied, r, height);
      rows := rows + source[r * sourceLinesize .. r * sourceLinesize + copied]
        + target[r * targetLinesize + copied .. r * targetLinesize + targetLinesize];
      assert |rows| == (r + 1) * targetLinesize;
      r := r + 1;
    }
  }

  /**
   * `fill_channel`: plane `i` gets its first `height * linesize[i]`
   * bytes rewritten row by row; all other planes and the rest of the
   * plane stay as they were. It always returns `Ok`.
   */
  method FillChannel(f: Frame, i: nat, source: seq<byte>) returns (r: Result<Frame, Error>)
    requires Valid(f) && i < AV_NUM_DATA_POINTERS
    requires f.height > 0 && |source| >= f.height && f.linesize[i] > 0
    ensures r.Ok?
    ensures Valid(r.value)
    ensures r.value == f.(planes := r.value.planes)
    ensures forall j :: 0 <= j < AV_NUM_DATA_POINTERS && j != i ==> r.value.planes[j] == f.planes[j]
    ensures |r.value.planes[i]| == |f.planes[i]|
    ensures r.value.planes[i][f.height * f.linesize[i]..] == f.planes[i][f.height * f.linesize[i]..]
    ensures var sourceLinesize := |source| / f.height;
      var copied := if sourceLinesize < f.linesize[i] then sourceLinesize else f.linesize[i];
      forall k :: 0 <= k < f.height ==>
        RowFilled(r.value.planes[i], Channel(f, i), source, f.linesize[i], sourceLinesize, copied, k)
  {
    var channel := Channel(f, i);
    var rows := FillRows(channel, f.linesize[i], f.height, source);
    var plane := rows + f.planes[i][|channel|..];
    var sourceLinesize := |source| / f.height;
    var copied := if sourceLinesize < f.linesize[i] then sourceLinesize else f.linesize[i];
    forall k | 0 <= k < f.height
      ensures RowFilled(plane, channel, source, f.linesize[i], sourceLinesize, copied, k)
    {
      KeepRow(rows, f.planes[i][|channel|..], channel, source, f.linesize[i], sourceLinesize, copied, k);
    }
    assert plane[|channel|..] == f.planes[i][|channel|..];
    r := Ok(f.(planes := f.planes[i := plane]));
  }
}
