/** `src/common/stream.rs`: a borrowed `AVStream` and iteration over a stream slice. */
module Streams {
  import opened Ints
  import opened Wrappers
  import opened Timebases
  import MediaTypes
  import Ffi

  /**
   * The `AVStream` fields the binding reads, with the codec type and id
   * of its `codecpar`.
   */
  datatype Stream = Stream(
    index: i32,
    timeBase: Rational,
    nbFrames: i64,
    codecType: MediaTypes.MediaType,
    codecId: Ffi.CodecId)

  /** `index`: the C `int` field `as usize`. */
  function Index(s: Stream): (i: usize)
    ensures s.index >= 0 ==> i == s.index
  {
    WrapUsize(s.index)
  }

  function TimeBase(s: Stream): Rational { s.timeBase }

  /** `num_frames`: known only when the library stored a positive count. */
  function NumFrames(s: Stream): (n: Option<usize>)
    ensures n.Some? <==> s.nbFrames > 0
    ensures n.Some? ==> n.value == s.nbFrames
  {
    if s.nbFrames > 0 then Some(WrapUsize(s.nbFrames)) else None
  }

  /** `Streams`: a `slice::Iter` over the context's stream pointers. */
  datatype StreamsIter = StreamsIter(slice: seq<Stream>, pos: nat)

  predicate Valid(it: StreamsIter) { it.pos <= |it.slice| }

  function FromSlice(slice: seq<Stream>): (it: StreamsIter)
    ensures Valid(it) && it.pos == 0
  {
    StreamsIter(slice, 0)
  }

  /** `Streams::next`. */
  function Next(it: StreamsIter): (r: (Option<Stream>, StreamsIter))
    requires Valid(it)
    ensures r.0.None? <==> it.pos == |it.slice|
    ensures r.0.None? ==> r.1 == it
    ensures r.0.Some? ==> (r.0.value == it.slice[it.pos] && r.1 == StreamsIter(it.slice, it.pos + 1))
    ensures Valid(r.1)
  {
    if it.pos == |it.slice| then (None, it)
    else (Some(it.slice[it.pos]), StreamsIter(it.slice, it.pos + 1))
  }

  /** Everything the iterator yields until its first `None`. */
  function Collect(it: StreamsIter): seq<Stream>
    requires Valid(it)
    decreases |it.slice| - it.pos
  {
    var (item, rest) := Next(it);
    match item
    case None => []
    case Some(s) => [s] + Collect(rest)
  }

  /** The iterator yields the remaining slice elements, one per element, in order. */
  lemma {:induction false} CollectIsRemainingSlice(it: StreamsIter)
    requires Valid(it)
    ensures Collect(it) == it.slice[it.pos..]
    decreases |it.slice| - it.pos
  {
    if it.pos < |it.slice| {
      CollectIsRemainingSlice(Next(it).1);
      assert it.slice[it.pos..] == [it.slice[it.pos]] + it.slice[it.pos + 1..];
    }
  }

  /** Iterating a slice from the start yields exactly the slice. */
  lemma IterationYieldsSlice(slice: seq<Stream>)
    ensures Collect(FromSlice(slice)) == slice
    ensures |Collect(FromSlice(slice))| == |slice|
  {
    CollectIsRemainingSlice(FromSlice(slice));
  }

  /** Past the end the iterator keeps returning `None`. */
  lemma ExhaustedStaysExhausted(it: StreamsIter)
    requires Valid(it) && Next(it).0.None?
    ensures Next(Next(it).1).0.None?
  {
  }
}
