/**
 * `src/format/muxer.rs`: the builder that turns a list of encoders into
 * an output format context with one stream each, the frame path from an
 * encoder into the container, and the flush-and-trailer finish.
 */
module Muxing {
  import opened Ints
  import opened Wrappers
  import opened Ffi
  import opened AvErrors
  import opened Timebases
  import Codecs
  import Scalers
  import RefMutFrames
  import Draining
  import VideoEncoding
  import GenericEncoding
  import Durations

  /** The `AVOutputFormat` fields the muxer reads. */
  datatype OutputFormat = OutputFormat(name: string, longName: string, flags: Flags)

  /** The `AVStream` fields the muxer sets: `index` (set by the library), `id` and `time_base`. */
  datatype MuxStream = MuxStream(index: i32, id: i32, timeBase: Rational)

  /**
   * An open muxer. `duration` is the format context's raw `duration`;
   * `closed` records that `close` already ran.
   */
  datatype Muxer = Muxer(
    format: OutputFormat,
    streams: seq<MuxStream>,
    encoders: seq<GenericEncoding.Encoder>,
    closed: bool,
    duration: i64)

  /** One stream per encoder, in order, each at its own index. */
  predicate Valid(m: Muxer)
  {
    && |m.streams| == |m.encoders|
    && (forall k :: 0 <= k < |m.streams| ==> m.streams[k].index == k)
    && (forall k :: 0 <= k < |m.encoders| ==> GenericEncoding.Valid(m.encoders[k]))
  }

  /** `num_streams`: `nb_streams as usize`. */
  function NumStreams(m: Muxer): (n: nat)
    ensures Valid(m) ==> n == |m.encoders|
  {
    |m.streams|
  }

  /** `duration`, as written (see `Durations.SecondsAsWritten`). */
  function DurationAsWritten(m: Muxer): (r: u32)
    ensures r <= Durations.MAX_AS_WRITTEN
    ensures r == Durations.SecondsAsWritten(m.duration)
  {
    Durations.SecondsAsWritten(m.duration)
  }

  /** `duration`, corrected to divide before the cast. */
  function Duration(m: Muxer): (r: u32)
    ensures 0 < m.duration && m.duration / AV_TIME_BASE < TWO_32 ==>
      r * AV_TIME_BASE <= m.duration < (r + 1) * AV_TIME_BASE
    ensures r == Durations.Seconds(m.duration)
  {
    Durations.Seconds(m.duration)
  }

  /** `format_name` and `format_long_name` read the output format. */
  function FormatName(m: Muxer): string { m.format.name }
  function FormatLongName(m: Muxer): string { m.format.longName }

  // ---------------------------------------------------------------- builder

  datatype Builder = Builder(
    name: Option<string>,
    formatName: Option<string>,
    format: Option<OutputFormat>,
    encoders: seq<GenericEncoding.Encoder>)

  /** `MuxerBuilder::new` (and `Muxer::new`). */
  function New(): (b: Builder)
    ensures b.name.None? && b.formatName.None? && b.format.None? && b.encoders == []
  {
    Builder(None, None, None, [])
  }

  /** `CString::new(..).unwrap()` panics on an interior NUL. */
  predicate NoNul(s: string) { forall i :: 0 <= i < |s| ==> s[i] != 0 as char }

  function SetName(b: Builder, name: string): (b': Builder)
    requires NoNul(name)
    ensures b'.name == Some(name) && b' == b.(name := b'.name)
  {
    b.(name := Some(name))
  }

  function SetFormatName(b: Builder, formatName: string): (b': Builder)
    requires NoNul(formatName)
    ensures b'.formatName == Some(formatName) && b' == b.(formatName := b'.formatName)
  {
    b.(formatName := Some(formatName))
  }

  function SetFormat(b: Builder, format: OutputFormat): (b': Builder)
    ensures b'.format == Some(format) && b' == b.(format := b'.format)
  {
    b.(format := Some(format))
  }

  /** `add_encoder`: appends; the other settings are untouched. */
  function AddEncoder(b: Builder, e: GenericEncoding.Encoder): (b': Builder)
    ensures b'.encoders == b.encoders + [e]
    ensures b'.name == b.name && b'.formatName == b.formatName && b'.format == b.format
  {
    b.(encoders := b.encoders + [e])
  }

  /** Calling `add_encoder` for each of `es`, in turn. */
  function AddEncoders(b: Builder, es: seq<GenericEncoding.Encoder>): Builder
    decreases |es|
  {
    if |es| == 0 then b else AddEncoders(AddEncoder(b, es[0]), es[1..])
  }

  /** Encoders are kept in the order they were added. */
  lemma {:induction false} AddEncodersKeepsOrder(b: Builder, es: seq<GenericEncoding.Encoder>)
    ensures AddEncoders(b, es).encoders == b.encoders + es
    ensures AddEncoders(b, es).format == b.format
    decreases |es|
  {
    if |es| > 0 {
      AddEncodersKeepsOrder(AddEncoder(b, es[0]), es[1..]);
      assert b.encoders + [es[0]] + es[1..] == b.encoders + es;
    }
  }

  // ------------------------------------------------------------------- open

  /** Whether the format needs global headers the encoder does not produce. */
  predicate MissingGlobalHeader(format: OutputFormat, e: GenericEncoding.Encoder)
  {
    HasFlag(format.flags, AVFMT_GLOBALHEADER) && !HasFlag(GenericEncoding.ContextFlags(e), AV_CODEC_FLAG_GLOBAL_HEADER)
  }

  /**
   * The per-encoder checks of `open` for the `k`-th encoder:
   * `streamAlloc(k)` is whether `avformat_new_stream` returned a stream,
   * `copyResult(k)` what `avcodec_parameters_from_context` returned.
   */
  function StreamCheck(format: OutputFormat, e: GenericEncoding.Encoder, k: nat,
                       streamAlloc: nat -> bool, copyResult: nat -> int): (r: Result<(), Error>)
  {
    if !streamAlloc(k) then Err(Msg("Could not allocate stream"))
    else if MissingGlobalHeader(format, e) then
      Err(MsgWithCode("Format requires global headers but encoder for stream {} does not use global headers", k))
    else if copyResult(k) < 0 then Err(MsgWithCode("Could not copy stream parameters", copyResult(k)))
    else Ok(())
  }

  /** The checks of encoders `from..`, stopping at the first that fails. */
  function CheckFrom(format: OutputFormat, es: seq<GenericEncoding.Encoder>, streamAlloc: nat -> bool,
                     copyResult: nat -> int, from: nat): Result<(), Error>
    requires from <= |es|
    decreases |es| - from
  {
    if from == |es| then Ok(())
    else
      var here := StreamCheck(format, es[from], from, streamAlloc, copyResult);
      if here.Err? then here else CheckFrom(format, es, streamAlloc, copyResult, from + 1)
  }

  /**
   * The stream setup succeeds exactly when every encoder passes its
   * checks, and otherwise reports the first encoder that fails.
   */
  lemma {:induction false} CheckFromFindsFirstFailure(format: OutputFormat, es: seq<GenericEncoding.Encoder>,
                                                      streamAlloc: nat -> bool, copyResult: nat -> int, from: nat)
    requires from <= |es|
    ensures CheckFrom(format, es, streamAlloc, copyResult, from).Ok?
      <==> forall k :: from <= k < |es| ==> StreamCheck(format, es[k], k, streamAlloc, copyResult).Ok?
    ensures CheckFrom(format, es, streamAlloc, copyResult, from).Err? ==> exists k :: (
      && from <= k < |es|
      && StreamCheck(format, es[k], k, streamAlloc, copyResult) == CheckFrom(format, es, streamAlloc, copyResult, from)
      && forall j :: from <= j < k ==> StreamCheck(format, es[j], j, streamAlloc, copyResult).Ok?)
    decreases |es| - from
  {
    if from < |es| && StreamCheck(format, es[from], from, streamAlloc, copyResult).Ok? {
      CheckFromFindsFirstFailure(format, es, streamAlloc, copyResult, from + 1);
    }
  }

  /** The stream `open` creates for the `k`-th encoder. */
  function StreamFor(e: GenericEncoding.Encoder, k: nat): MuxStream
    requires k + 1 <= I32_MAX
  {
    MuxStream(k, WrapI32(k + 1) - 1, GenericEncoding.TimeBase(e))
  }

  /**
   * The `for` loop of `open`: one stream per encoder, in order, each
   * checked before the next is created; the first failing check ends it.
   */
  method CreateStreams(format: OutputFormat, encoders: seq<GenericEncoding.Encoder>,
                       streamAlloc: nat -> bool, copyResult: nat -> int)
    returns (r: Result<seq<MuxStream>, Error>)
    requires |encoders| <= I32_MAX
    ensures r.Err? <==> CheckFrom(format, encoders, streamAlloc, copyResult, 0).Err?
    ensures r.Err? ==> r.error == CheckFrom(format, encoders, streamAlloc, copyResult, 0).error
    ensures r.Ok? ==> |r.value| == |encoders| && forall j :: 0 <= j < |encoders| ==> r.value[j] == StreamFor(encoders[j], j)
  {
    var streams: seq<MuxStream> := [];
    var k := 0;
    while k < |encoders|
      invariant 0 <= k <= |encoders|
      invariant CheckFrom(format, encoders, streamAlloc, copyResult, 0) == CheckFrom(format, encoders, streamAlloc, copyResult, k)
      invariant |streams| == k
      invariant forall j :: 0 <= j < k ==> streams[j] == StreamFor(encoders[j], j)
    {
      var check := StreamCheck(format, encoders[k], k, streamAlloc, copyResult);
      if check.Err? {
        assert CheckFrom(format, encoders, streamAlloc, copyResult, k) == check;
        return Err(check.error);
      }
      assert CheckFrom(format, encoders, streamAlloc, copyResult, k) == CheckFrom(format, encoders, streamAlloc, copyResult, k + 1);
      streams := streams + [StreamFor(encoders[k], k)];
      k := k + 1;
    }
    r := Ok(streams);
  }

  /** The builder after `open`, what `open` returned, and whether it freed the format context it allocated. */
  datatype Opening = Opening(builder: Builder, result: Result<Muxer, Error>, contextFreed: bool)

  /**
   * `MuxerBuilder::open`. A missing format fails before anything else;
   * otherwise the encoders are moved out of the builder, the format
   * context is allocated (`allocOk`), each encoder gets a stream and is
   * checked in order, and the header is written (`headerResult`). A
   * failure after the allocation frees the context. The writer and the
   * name/format-name lookup are left to the library.
   */
  method Open(b: Builder, allocOk: bool, streamAlloc: nat -> bool, copyResult: nat -> int, headerResult: int)
    returns (o: Opening)
    requires |b.encoders| <= I32_MAX
    requires forall k :: 0 <= k < |b.encoders| ==> GenericEncoding.Valid(b.encoders[k])
    ensures b.format.None? ==> o == Opening(b, Err(Msg("No format set")), false)
    ensures b.format.Some? ==> o.builder == b.(encoders := [])
    ensures b.format.Some? && !allocOk ==>
      o.result == Err(Msg("Failed to allocate output context (unknown format?)")) && !o.contextFreed
    ensures b.format.Some? && allocOk ==> (o.contextFreed <==> o.result.Err?)
    ensures b.format.Some? && allocOk && CheckFrom(b.format.value, b.encoders, streamAlloc, copyResult, 0).Err? ==>
      o.result == Err(CheckFrom(b.format.value, b.encoders, streamAlloc, copyResult, 0).error)
    ensures b.format.Some? && allocOk && CheckFrom(b.format.value, b.encoders, streamAlloc, copyResult, 0).Ok? ==>
      (o.result.Ok? <==> headerResult >= 0) && (o.result.Err? ==> o.result.error == Msg("Could not write header"))
    ensures o.result.Ok? ==>
      var m := o.result.value;
      && Valid(m) && !m.closed && m.format == b.format.value && m.encoders == b.encoders
      && forall k :: 0 <= k < |m.streams| ==>
           m.streams[k].id == k && m.streams[k].timeBase == GenericEncoding.TimeBase(m.encoders[k])
  {
    if b.format.None? {
      return Opening(b, Err(Msg("No format set")), false);
    }
    var format := b.format.value;
    var encoders := b.encoders;
    var left := b.(encoders := []);
    if !allocOk {
      return Opening(left, Err(Msg("Failed to allocate output context (unknown format?)")), false);
    }
    var streams := CreateStreams(format, encoders, streamAlloc, copyResult);
    if streams.Err? {
      return Opening(left, Err(streams.error), true);
    }
    if headerResult < 0 {
      return Opening(left, Err(Msg("Could not write header")), true);
    }
    o := Opening(left, Ok(Muxer(format, streams.value, encoders, false, 0)), false);
  }

  // ------------------------------------------------------------ write frame

  /** The `AVPacket` fields `write_frame` touches. */
  datatype Packet = Packet(pts: i64, dts: i64, duration: i64, streamIndex: i32)

  /** `av_packet_rescale_ts` on one timestamp: from the first time base to the second. */
  type Rescale = (i64, Rational, Rational) -> i64

  /**
   * `write_frame`: rescales the packet from the encoder's time base to
   * the stream's, stamps it with the stream's index and hands it to
   * `av_interleaved_write_frame`, whose answer is `writeResult`. Returns
   * the packet as written and the outcome.
   */
  function WriteFrame(p: Packet, timeBase: Rational, stream: MuxStream, rescale: Rescale, writeResult: int)
    : (r: (Packet, Result<(), Error>))
    ensures r.0.streamIndex == stream.index
    ensures r.0.pts == rescale(p.pts, timeBase, stream.timeBase) && r.0.dts == rescale(p.dts, timeBase, stream.timeBase)
    ensures r.0.duration == rescale(p.duration, timeBase, stream.timeBase)
    ensures r.1.Err? <==> writeResult < 0
    ensures r.1.Err? ==> r.1.error == Msg("Failed to write frame")
  {
    var out := Packet(rescale(p.pts, timeBase, stream.timeBase), rescale(p.dts, timeBase, stream.timeBase),
                      rescale(p.duration, timeBase, stream.timeBase), stream.index);
    (out, if writeResult < 0 then Err(Msg("Failed to write frame")) else Ok(()))
  }

  /** The handler `send_frame` passes to the encoder: packet `n` is written with result `writeResult(n)`. */
  function WriteHandler(writeResult: nat -> int): (h: nat -> Result<(), string>)
    ensures forall n :: h(n).Err? <==> writeResult(n) < 0
  {
    (n: nat) => if writeResult(n) < 0 then Err("Failed to write frame") else Ok(())
  }

  /** The muxer after `send_frame` and what it returned. */
  datatype FrameSent = FrameSent(muxer: Muxer, result: Result<(), Error>, log: seq<Draining.Event>)

  /**
   * `send_frame`: the encoder of `streamId` encodes the frame and each
   * packet it yields is written to that stream. The stream id must name
   * an encoder (the index panics otherwise).
   */
  method SendFrame(m: Muxer, streamId: nat, frame: RefMutFrames.RefMutFrame, getContext: Scalers.SwsGetContext,
                   alloc: VideoEncoding.FrameAlloc, codes: seq<int>, writeResult: nat -> int)
    returns (s: FrameSent)
    requires Valid(m) && streamId < |m.encoders|
    requires GenericEncoding.CanSend(m.encoders[streamId], frame, alloc)
    requires GenericEncoding.SendDecided(m.encoders[streamId], frame, getContext, alloc, codes, WriteHandler(writeResult))
    ensures Valid(s.muxer)
    ensures s.muxer == m.(encoders := s.muxer.encoders) && |s.muxer.encoders| == |m.encoders|
    ensures forall k :: 0 <= k < |m.encoders| && k != streamId ==> s.muxer.encoders[k] == m.encoders[k]
    ensures s.muxer.encoders[streamId].Video? == m.encoders[streamId].Video?
    ensures GenericEncoding.SendOutcome(m.encoders[streamId], frame, getContext, alloc, codes, WriteHandler(writeResult),
                                        s.result, s.log)
    ensures s.result.Ok? ==>
      && Draining.Decided(codes, WriteHandler(writeResult))
      && var n := Draining.Stop(codes, WriteHandler(writeResult), 0);
      && Draining.IsEnd(codes[n])
      && (forall j :: 0 <= j < n ==> writeResult(j) >= 0)
      && s.log == Draining.HandledPackets(n)
  {
    var sent := GenericEncoding.SendFrame(m.encoders[streamId], frame, getContext, alloc, codes, WriteHandler(writeResult));
    s := FrameSent(m.(encoders := m.encoders[streamId := sent.encoder]), sent.result, sent.log);
  }

  // ------------------------------------------------------------------ flush

  /** What one stream does in one sweep of `_flush`. */
  datatype FlushStep = Skipped | Quiet | Wrote | Failed(error: Error)

  /** `AV_CODEC_CAP_DELAY`: only such codecs hold back packets to flush. */
  predicate Delays(m: Muxer, i: nat)
    requires i < |m.encoders|
  {
    HasFlag(GenericEncoding.CodecOf(m.encoders[i]).capabilities, AV_CODEC_CAP_DELAY)
  }

  /**
   * Stream `i` in sweep `s`: `code(s, i)` is what `avcodec_receive_packet`
   * returned after the null frame was sent, and `writeOk(s, i)` whether
   * writing the received packet succeeded.
   */
  function FlushStream(m: Muxer, s: nat, i: nat, code: (nat, nat) -> int, writeOk: (nat, nat) -> bool): FlushStep
    requires i < |m.encoders|
  {
    if !Delays(m, i) then Skipped
    else if code(s, i) == 0 then (if writeOk(s, i) then Wrote else Failed(Msg("Failed to write frame")))
    else if Draining.IsEnd(code(s, i)) then Quiet
    else Failed(Msg("Error encoding packet"))
  }

  /** The streams that wrote a packet in a sweep, and the error that cut the sweep short, if any. */
  datatype SweepResult = SweepResult(written: seq<nat>, error: Option<Error>)

  /** Sweep `s` over streams `from..`, stopping at the first error. */
  function Sweep(m: Muxer, s: nat, code: (nat, nat) -> int, writeOk: (nat, nat) -> bool, from: nat): SweepResult
    requires from <= |m.encoders|
    decreases |m.encoders| - from
  {
    if from == |m.encoders| then SweepResult([], None)
    else
      match FlushStream(m, s, from, code, writeOk)
      case Failed(e) => SweepResult([], Some(e))
      case Wrote =>
        var rest := Sweep(m, s, code, writeOk, from + 1);
        SweepResult([from] + rest.written, rest.error)
      case _ => Sweep(m, s, code, writeOk, from + 1)
  }

  /** A sweep writes only streams of codecs with delay, each at most once and in stream order. */
  lemma {:induction false} SweepWritesDelayingStreamsInOrder(m: Muxer, s: nat, code: (nat, nat) -> int,
                                                             writeOk: (nat, nat) -> bool, from: nat)
    requires from <= |m.encoders|
    ensures forall j :: 0 <= j < |Sweep(m, s, code, writeOk, from).written| ==>
      var i := Sweep(m, s, code, writeOk, from).written[j];
      from <= i < |m.encoders| && Delays(m, i)
    ensures forall j, l :: 0 <= j < l < |Sweep(m, s, code, writeOk, from).written| ==>
      Sweep(m, s, code, writeOk, from).written[j] < Sweep(m, s, code, writeOk, from).written[l]
    decreases |m.encoders| - from
  {
    if from < |m.encoders| {
      SweepWritesDelayingStreamsInOrder(m, s, code, writeOk, from + 1);
      var rest := Sweep(m, s, code, writeOk, from + 1);
      var r := Sweep(m, s, code, writeOk, from);
      match FlushStream(m, s, from, code, writeOk)
      case Failed(_) => assert r.written == [];
      case Wrote =>
        assert r.written == [from] + rest.written;
        assert forall j :: 1 <= j < |r.written| ==> r.written[j] == rest.written[j - 1];
      case _ => assert r == rest;
    }
  }

  /** `_flush` stops after a sweep that failed or wrote nothing. */
  predicate LastSweep(m: Muxer, s: nat, code: (nat, nat) -> int, writeOk: (nat, nat) -> bool)
  {
    var r := Sweep(m, s, code, writeOk, 0);
    r.error.Some? || r.written == []
  }

  /** The streams written by sweeps `0..t`, in order. */
  function WrittenThrough(m: Muxer, t: nat, code: (nat, nat) -> int, writeOk: (nat, nat) -> bool): seq<nat>
  {
    (if t == 0 then [] else WrittenThrough(m, t - 1, code, writeOk)) + Sweep(m, t, code, writeOk, 0).written
  }

  /** One sweep of `_flush`, the `for` loop over the streams. */
  method SweepOnce(m: Muxer, s: nat, code: (nat, nat) -> int, writeOk: (nat, nat) -> bool) returns (r: SweepResult)
    ensures r == Sweep(m, s, code, writeOk, 0)
  {
    var i := 0;
    var written: seq<nat> := [];
    while i < |m.encoders|
      invariant 0 <= i <= |m.encoders|
      invariant Sweep(m, s, code, writeOk, 0)
        == SweepResult(written + Sweep(m, s, code, writeOk, i).written, Sweep(m, s, code, writeOk, i).error)
    {
      var step := FlushStream(m, s, i, code, writeOk);
      if step.Failed? {
        return SweepResult(written, Some(step.error));
      }
      if step.Wrote? {
        assert written + Sweep(m, s, code, writeOk, i).written
          == (written + [i]) + Sweep(m, s, code, writeOk, i + 1).written;
        written := written + [i];
      }
      i := i + 1;
    }
    assert written + [] == written;
    r := SweepResult(written, None);
  }

  /**
   * `_flush`: sweep all streams of codecs with delay, sending each a
   * null frame and writing the packet it returns; sweep again as long as
   * the last sweep wrote a packet; stop at the first error. Requires that
   * the library eventually goes quiet. Returns the outcome, the streams
   * written in order, and the index of the last sweep.
   */
  method Flush(m: Muxer, code: (nat, nat) -> int, writeOk: (nat, nat) -> bool)
    returns (result: Result<(), Error>, written: seq<nat>, last: nat)
    requires exists t :: LastSweep(m, t, code, writeOk)
    ensures LastSweep(m, last, code, writeOk)
    ensures forall s :: 0 <= s < last ==> !LastSweep(m, s, code, writeOk)
    ensures var r := Sweep(m, last, code, writeOk, 0);
      && (result.Ok? <==> r.error.None?)
      && (result.Err? ==> result.error == r.error.value)
    ensures written == WrittenThrough(m, last, code, writeOk)
  {
    ghost var bound: nat :| LastSweep(m, bound, code, writeOk);
    var s := 0;
    written := [];
    var r := SweepOnce(m, 0, code, writeOk);
    written := r.written;
    while r.error.None? && r.written != []
      invariant forall j :: 0 <= j < s ==> !LastSweep(m, j, code, writeOk)
      invariant r == Sweep(m, s, code, writeOk, 0)
      invariant written == WrittenThrough(m, s, code, writeOk)
      invariant s <= bound
      decreases bound - s
    {
      assert !LastSweep(m, s, code, writeOk);
      s := s + 1;
      r := SweepOnce(m, s, code, writeOk);
      written := written + r.written;
      assert written == WrittenThrough(m, s, code, writeOk);
    }
    last := s;
    result := if r.error.Some? then Err(r.error.value) else Ok(());
  }

  /**
   * A sweep that is not the last wrote a packet: when sweeps `0..t` all
   * went on, they wrote more than `t` packets, so `_flush` never sweeps
   * more often than it writes.
   */
  lemma {:induction false} FlushSweepsAreProductive(m: Muxer, t: nat, code: (nat, nat) -> int, writeOk: (nat, nat) -> bool)
    requires forall s :: 0 <= s <= t ==> !LastSweep(m, s, code, writeOk)
    ensures |WrittenThrough(m, t, code, writeOk)| > t
  {
    assert !LastSweep(m, t, code, writeOk);
    if t > 0 {
      FlushSweepsAreProductive(m, t - 1, code, writeOk);
    }
  }

  /** Only streams whose codec has AV_CODEC_CAP_DELAY are flushed. */
  lemma {:induction false} FlushSkipsCodecsWithoutDelay(m: Muxer, t: nat, code: (nat, nat) -> int, writeOk: (nat, nat) -> bool)
    ensures forall j :: 0 <= j < |WrittenThrough(m, t, code, writeOk)| ==>
      var i := WrittenThrough(m, t, code, writeOk)[j];
      i < |m.encoders| && Delays(m, i)
  {
    var w := WrittenThrough(m, t, code, writeOk);
    var here := Sweep(m, t, code, writeOk, 0).written;
    SweepWritesDelayingStreamsInOrder(m, t, code, writeOk, 0);
    if t > 0 {
      FlushSkipsCodecsWithoutDelay(m, t - 1, code, writeOk);
      var before := WrittenThrough(m, t - 1, code, writeOk);
      assert w == before + here;
      forall j | 0 <= j < |w|
        ensures w[j] < |m.encoders| && Delays(m, w[j])
      {
        if j < |before| { assert w[j] == before[j]; } else { assert w[j] == here[j - |before|]; }
      }
    } else {
      assert w == [] + here;
    }
  }

  // ------------------------------------------------------------ close, drop

  /** What finishing the muxer does, in order. */
  datatype Action = Flushed | TrailerWritten | ContextFreed

  /**
   * `_real_close`: flush (`flushResult` is `_flush`'s outcome) and, if
   * that succeeded, write the trailer (`trailerResult` is
   * `av_write_trailer`'s answer).
   */
  function RealClose(flushResult: Result<(), Error>, trailerResult: int): (r: (Result<(), Error>, seq<Action>))
    ensures r.1 == (if flushResult.Ok? then [Flushed, TrailerWritten] else [Flushed])
    ensures flushResult.Err? ==> r.0 == flushResult
    ensures flushResult.Ok? ==> (r.0.Ok? <==> trailerResult >= 0)
    ensures flushResult.Ok? && trailerResult < 0 ==> r.0 == Err(Msg("Failed to write trailer"))
  {
    match flushResult
    case Err(_) => (flushResult, [Flushed])
    case Ok(_) => (if trailerResult < 0 then Err(Msg("Failed to write trailer")) else Ok(()), [Flushed, TrailerWritten])
  }

  datatype Closed = Closed(muxer: Muxer, result: Result<(), Error>, actions: seq<Action>)

  /** `close`: marks the muxer closed, then finishes it. */
  function Close(m: Muxer, flushResult: Result<(), Error>, trailerResult: int): (c: Closed)
    ensures c.muxer == m.(closed := true)
    ensures (c.result, c.actions) == RealClose(flushResult, trailerResult)
  {
    var (result, actions) := RealClose(flushResult, trailerResult);
    Closed(m.(closed := true), result, actions)
  }

  /** `Drop`: finishes the muxer unless `close` already did (ignoring the outcome), then frees the context. */
  function Drop(m: Muxer, flushResult: Result<(), Error>, trailerResult: int): (actions: seq<Action>)
    ensures m.closed ==> actions == [ContextFreed]
    ensures !m.closed ==> actions == RealClose(flushResult, trailerResult).1 + [ContextFreed]
  {
    (if m.closed then [] else RealClose(flushResult, trailerResult).1) + [ContextFreed]
  }

  /** Closing and then dropping flushes once, writes the trailer at most once and frees the context last. */
  lemma CloseThenDropFinishesOnce(m: Muxer, f1: Result<(), Error>, t1: int, f2: Result<(), Error>, t2: int)
    requires !m.closed
    ensures var c := Close(m, f1, t1);
      var all := c.actions + Drop(c.muxer, f2, t2);
      && multiset(all)[Flushed] == 1
      && multiset(all)[TrailerWritten] == (if f1.Ok? then 1 else 0)
      && multiset(all)[ContextFreed] == 1
      && all[|all| - 1] == ContextFreed
  {
    var c := Close(m, f1, t1);
    if f1.Ok? {
      assert c.actions + Drop(c.muxer, f2, t2) == [Flushed, TrailerWritten, ContextFreed];
    } else {
      assert c.actions + Drop(c.muxer, f2, t2) == [Flushed, ContextFreed];
    }
  }

  /** Dropping an open muxer finishes it exactly as `close` would. */
  lemma DropWithoutCloseFinishesOnce(m: Muxer, f: Result<(), Error>, t: int)
    requires !m.closed
    ensures Drop(m, f, t) == Close(m, f, t).actions + [ContextFreed]
    ensures multiset(Drop(m, f, t))[Flushed] == 1
  {
  }
}
