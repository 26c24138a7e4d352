/** `src/format/demuxer.rs`: an input format context read through a reader. */
module Demuxing {
  import opened Ints
  import opened Wrappers
  import opened Ffi
  import opened AvErrors
  import opened Timebases
  import Streams
  import Durations

  /** The `AVInputFormat` names the demuxer reports. */
  datatype InputFormat = InputFormat(name: string, longName: string)

  /** An open demuxer: what the library found in the input. `duration` is the context's raw `duration`. */
  datatype Demuxer = Demuxer(format: InputFormat, streams: seq<Streams.Stream>, duration: i64)

  /** What `open` returned, and whether it closed the input it had opened. */
  datatype Opened = Opened(result: Result<Demuxer, Error>, inputClosed: bool)

  /**
   * `Demuxer::open`. `allocOk` is whether `avformat_alloc_context`
   * returned a context, `openResult` what `avformat_open_input` returned
   * (the library frees the context itself when that fails),
   * `findInfoResult` what `avformat_find_stream_info` returned, and
   * `probed` what the library read from the input.
   */
  function Open(allocOk: bool, openResult: int, findInfoResult: int, probed: Demuxer): (o: Opened)
    ensures !allocOk ==> o == Opened(Err(Msg("Failed to allocate input context")), false)
    ensures allocOk && openResult < 0 ==> o == Opened(Err(Msg("Failed to open input context")), false)
    ensures allocOk && openResult >= 0 && findInfoResult < 0 ==> o == Opened(Err(Msg("Failed to find stream info")), true)
    ensures o.result.Ok? <==> allocOk && openResult >= 0 && findInfoResult >= 0
    ensures o.result.Ok? ==> o.result.value == probed && !o.inputClosed
  {
    if !allocOk then Opened(Err(Msg("Failed to allocate input context")), false)
    else if openResult < 0 then Opened(Err(Msg("Failed to open input context")), false)
    else if findInfoResult < 0 then Opened(Err(Msg("Failed to find stream info")), true)
    else Opened(Ok(probed), false)
  }

  /** `num_streams`: `nb_streams as usize`. */
  function NumStreams(d: Demuxer): nat { |d.streams| }

  /** `streams`: an iterator over the first `num_streams` stream pointers. */
  function StreamsOf(d: Demuxer): (it: Streams.StreamsIter)
    ensures Streams.Valid(it) && it.pos == 0
  {
    Streams.FromSlice(d.streams[..NumStreams(d)])
  }

  /** `streams` yields exactly `num_streams` streams, the context's own, in order. */
  lemma StreamsYieldsAll(d: Demuxer)
    ensures Streams.Collect(StreamsOf(d)) == d.streams
    ensures |Streams.Collect(StreamsOf(d))| == NumStreams(d)
  {
    assert d.streams[..NumStreams(d)] == d.streams;
    Streams.IterationYieldsSlice(d.streams);
  }

  /** `Iterator::nth`: skip `n` items, then return the next. */
  function Nth(it: Streams.StreamsIter, n: nat): Option<Streams.Stream>
    requires Streams.Valid(it)
    decreases n
  {
    var (item, rest) := Streams.Next(it);
    if n == 0 || item.None? then item else Nth(rest, n - 1)
  }

  /** The `n`-th item of the iterator is the `n`-th remaining slice element, if there is one. */
  lemma {:induction false} NthIsIndex(it: Streams.StreamsIter, n: nat)
    requires Streams.Valid(it)
    ensures it.pos + n < |it.slice| ==> Nth(it, n) == Some(it.slice[it.pos + n])
    ensures it.pos + n >= |it.slice| ==> Nth(it, n).None?
    decreases n
  {
    if n > 0 && it.pos < |it.slice| {
      NthIsIndex(Streams.Next(it).1, n - 1);
    }
  }

  /** `duration`, as written (see `Durations.SecondsAsWritten`). */
  function DurationAsWritten(d: Demuxer): (r: u32)
    ensures r <= Durations.MAX_AS_WRITTEN
    ensures r == Durations.SecondsAsWritten(d.duration)
  {
    Durations.SecondsAsWritten(d.duration)
  }

  /** `duration`, corrected to divide before the cast. */
  function Duration(d: Demuxer): (r: u32)
    ensures 0 < d.duration && d.duration / AV_TIME_BASE < TWO_32 ==>
      r * AV_TIME_BASE <= d.duration < (r + 1) * AV_TIME_BASE
    ensures r == Durations.Seconds(d.duration)
  {
    Durations.Seconds(d.duration)
  }

  function FormatName(d: Demuxer): string { d.format.name }
  function FormatLongName(d: Demuxer): string { d.format.longName }

  /** What `av_read_frame` filled in. */
  datatype RawPacket = RawPacket(streamIndex: i32, data: seq<int>)

  /** A demuxed packet together with the time base of the stream it belongs to. */
  datatype DemuxedPacket = DemuxedPacket(packet: RawPacket, timeBase: Rational)

  /**
   * `read_packet`. `allocOk` is whether `av_packet_alloc` returned a
   * packet, `readResult` what `av_read_frame` returned and `raw` what it
   * read. EOF is the end of the input, not an error. The stream index is
   * cast `as usize`, so a negative one is out of range like any other
   * index past the last stream (`nb_streams` is a C `unsigned int`, so
   * there are fewer than 2^32 streams).
   */
  function ReadPacket(d: Demuxer, allocOk: bool, readResult: int, raw: RawPacket): (r: Result<Option<DemuxedPacket>, Error>)
    requires NumStreams(d) <= U32_MAX
    ensures !allocOk ==> r == Err(AllocFailed("demuxing packet"))
    ensures allocOk && readResult == AVERROR_EOF ==> r == Ok(None)
    ensures allocOk && readResult < 0 && readResult != AVERROR_EOF ==> r == Err(Msg("Demuxer failed to read packet"))
    ensures r.Ok? && r.value.Some? <==> allocOk && readResult >= 0 && 0 <= raw.streamIndex < NumStreams(d)
    ensures r.Ok? && r.value.Some? ==>
      r.value.value == DemuxedPacket(raw, d.streams[raw.streamIndex].timeBase)
    ensures allocOk && readResult >= 0 && !(0 <= raw.streamIndex < NumStreams(d)) ==>
      r == Err(Msg("Demuxed packet has invalid stream index"))
  {
    if !allocOk then Err(AllocFailed("demuxing packet"))
    else if readResult < 0 then
      if readResult == AVERROR_EOF then Ok(None) else Err(Msg("Demuxer failed to read packet"))
    else
      var index := WrapUsize(raw.streamIndex);
      assert raw.streamIndex < 0 ==> index == raw.streamIndex + TWO_64;
      NthIsIndex(StreamsOf(d), index);
      assert d.streams[..NumStreams(d)] == d.streams;
      match Nth(StreamsOf(d), index)
      case None => Err(Msg("Demuxed packet has invalid stream index"))
      case Some(stream) => Ok(Some(DemuxedPacket(raw, Streams.TimeBase(stream))))
  }
}
