/**
 * `src/io.rs`: the bridge between the library's AVIO callbacks and a
 * caller-supplied byte stream. The stream itself (its `seek`, `size`,
 * `read_packet`, `write_packet`) is abstract: its answers are parameters.
 */
module AvIo {
  import opened Ints
  import opened Wrappers
  import opened Ffi

  /** `std::io::SeekFrom`. */
  datatype SeekFrom = Start(pos: u64) | Current(delta: i64) | End(delta: i64)

  /**
   * What one call of the seek callback did: the value handed back to the
   * library and the request forwarded to the stream's `seek`, if any.
   */
  datatype SeekReply = SeekReply(ret: i64, forwarded: Option<SeekFrom>)

  /** `u64_into_int64_t`: checked narrowing of an unsigned 64-bit value. */
  function U64IntoInt64(n: u64): (r: Option<i64>)
    ensures r.Some? <==> n <= I64_MAX
    ensures r.Some? ==> r.value == n
  {
    if n <= I64_MAX then var v: i64 := n; Some(v) else None
  }

  /** `int64_t_into_u64`: checked conversion of a signed 64-bit value. */
  function Int64IntoU64(n: i64): (r: Option<u64>)
    ensures r.Some? <==> n >= 0
    ensures r.Some? ==> r.value == n
  {
    if n >= 0 then var v: u64 := n; Some(v) else None
  }

  /** Both conversions succeed and undo each other exactly on [0, i64::MAX]. */
  lemma ConversionsRoundTrip(n: int)
    ensures 0 <= n <= I64_MAX ==> Int64IntoU64(n) == Some(n) && U64IntoInt64(n) == Some(n)
    ensures IsI64(n) && Int64IntoU64(n).Some? ==> U64IntoInt64(Int64IntoU64(n).value) == Some(n)
    ensures IsU64(n) && U64IntoInt64(n).Some? ==> Int64IntoU64(U64IntoInt64(n).value) == Some(n)
  {
  }

  /** A stream answer mapped to the callback's `int64_t`: -1 when absent or too large. */
  function PositionReply(p: Option<u64>): (ret: i64)
    ensures ret >= -1
    ensures ret == -1 <==> p.None? || p.value > I64_MAX
    ensures ret >= 0 ==> p == Some(ret)
  {
    match U64IntoInt64(if p.Some? then p.value else 0)
    case Some(v) => if p.Some? then v else -1
    case None => -1
  }

  /** The `SeekFrom` that `whence`/`offset` stand for, `None` when the callback must refuse. */
  function SeekRequest(offset: i64, whence: i32): (pos: Option<SeekFrom>)
    ensures whence == SEEK_SET ==> pos == (if offset >= 0 then Some(Start(offset)) else None)
    ensures whence == SEEK_CUR ==> pos == Some(Current(offset))
    ensures whence == SEEK_END ==> pos == Some(End(offset))
    ensures whence !in {SEEK_SET, SEEK_CUR, SEEK_END} ==> pos.None?
  {
    if whence == SEEK_SET then
      match Int64IntoU64(offset)
      case Some(start) => Some(Start(start))
      case None => None
    else if whence == SEEK_CUR then Some(Current(offset))
    else if whence == SEEK_END then Some(End(offset))
    else None
  }

  /**
   * `ffi_seek`: the library's `(offset, whence)` request answered with
   * the stream's `size` (for AVSEEK_SIZE) or with its `seek`.
   */
  function FfiSeek(offset: i64, whence: i32, size: Option<u64>, seek: SeekFrom -> Option<u64>): (r: SeekReply)
    ensures whence == AVSEEK_SIZE ==>
      r.forwarded.None? && r.ret == (if size.Some? && size.value <= I64_MAX then size.value else -1)
    ensures whence == SEEK_SET && offset < 0 ==> r == SeekReply(-1, None)
    ensures whence == SEEK_SET && offset >= 0 ==> r.forwarded == Some(Start(offset))
    ensures whence == SEEK_CUR ==> r.forwarded == Some(Current(offset))
    ensures whence == SEEK_END ==> r.forwarded == Some(End(offset))
    ensures whence !in {AVSEEK_SIZE, SEEK_SET, SEEK_CUR, SEEK_END} ==> r == SeekReply(-1, None)
    ensures r.forwarded.Some? ==>
      var p := seek(r.forwarded.value);
      r.ret == (if p.Some? && p.value <= I64_MAX then p.value else -1)
    ensures r.ret >= -1
  {
    if whence == AVSEEK_SIZE then
      SeekReply(PositionReply(size), None)
    else
      match SeekRequest(offset, whence)
      case None => SeekReply(-1, None)
      case Some(pos) => SeekReply(PositionReply(seek(pos)), Some(pos))
  }

  /**
   * A stream that answers every seek with the absolute position it was
   * asked for (a file of unbounded size) is driven to exactly that
   * position by SEEK_SET; a stream that cannot seek always yields -1.
   */
  lemma SeekSetReachesOffset(offset: i64, size: Option<u64>, seek: SeekFrom -> Option<u64>)
    requires offset >= 0
    requires forall p: SeekFrom :: p.Start? ==> seek(p) == Some(p.pos)
    ensures FfiSeek(offset, SEEK_SET, size, seek).ret == offset
  {
  }

  lemma FailingStreamAnswersMinusOne(offset: i64, whence: i32, seek: SeekFrom -> Option<u64>)
    requires whence != AVSEEK_SIZE
    requires forall p: SeekFrom :: seek(p).None?
    ensures FfiSeek(offset, whence, None, seek).ret == -1
  {
  }

  /** `ffi_read_packet`: the count the stream reports, `as c_int`, or -1 (EOF) for `None`. */
  function FfiReadPacket(reported: Option<usize>): (r: i32)
    ensures reported.None? ==> r == -1
    ensures reported.Some? ==> (reported.value - r) % TWO_32 == 0
    ensures reported.Some? && reported.value <= I32_MAX ==> r == reported.value
  {
    match reported
    case Some(n) => WrapI32(n)
    case None => -1
  }

  /** `ffi_write_packet`: the count the stream reports, `as c_int`, or -1 for `None`. */
  function FfiWritePacket(reported: Option<usize>): (r: i32)
    ensures reported.None? ==> r == -1
    ensures reported.Some? ==> (reported.value - r) % TWO_32 == 0
    ensures reported.Some? && reported.value <= I32_MAX ==> r == reported.value
  {
    match reported
    case Some(n) => WrapI32(n)
    case None => -1
  }

  /**
   * A stream that never claims more bytes than the library's buffer
   * (`buf_size` is a `c_int`) has its count passed through unchanged,
   * and -1 is reported exactly when it returned `None`.
   */
  lemma HonestCountsPassThrough(reported: Option<usize>, bufSize: i32)
    requires reported.Some? ==> reported.value <= bufSize
    ensures FfiReadPacket(reported) == (if reported.Some? then reported.value else -1)
    ensures FfiWritePacket(reported) == (if reported.Some? then reported.value else -1)
    ensures FfiReadPacket(reported) == -1 <==> reported.None?
  {
  }

  /** The default `buffer_size` of both `AVRead` and `AVWrite`: 4 KiB. */
  const DEFAULT_BUFFER_SIZE: i32 := 4 * 1024

  /** The arguments `avio_alloc_context` receives. */
  datatype AvioArgs = AvioArgs(
    bufferSize: i32,
    writeFlag: int,
    readCallback: bool,
    writeCallback: bool,
    seekCallback: bool)

  /** `IOContext::from_reader`. */
  function FromReader(bufferSize: i32): (a: AvioArgs)
    ensures a.bufferSize == bufferSize
    ensures a.writeFlag == 0 && a.readCallback && !a.writeCallback && a.seekCallback
  {
    AvioArgs(bufferSize, 0, true, false, true)
  }

  /** `IOContext::from_writer`. */
  function FromWriter(bufferSize: i32): (a: AvioArgs)
    ensures a.bufferSize == bufferSize
    ensures a.writeFlag == 1 && !a.readCallback && a.writeCallback && a.seekCallback
  {
    AvioArgs(bufferSize, 1, false, true, true)
  }

  /**
   * Readers and writers differ exactly in direction: with the default
   * buffer size both contexts get 4096 bytes and a seek callback, and
   * exactly one of them has each data callback.
   */
  lemma ReaderWriterMirror()
    ensures FromReader(DEFAULT_BUFFER_SIZE).bufferSize == FromWriter(DEFAULT_BUFFER_SIZE).bufferSize == 4096
    ensures FromReader(DEFAULT_BUFFER_SIZE).readCallback != FromWriter(DEFAULT_BUFFER_SIZE).readCallback
    ensures FromReader(DEFAULT_BUFFER_SIZE).writeCallback != FromWriter(DEFAULT_BUFFER_SIZE).writeCallback
    ensures FromReader(DEFAULT_BUFFER_SIZE).writeFlag + 1 == FromWriter(DEFAULT_BUFFER_SIZE).writeFlag
  {
  }
}
