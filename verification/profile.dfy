/** `src/codec/profile.rs`: iteration over a codec's profile table. */
module Profiles {
  import opened Wrappers
  import opened Ffi
  import Sentinel

  /** An `AVProfile` entry; a table ends with profile FF_PROFILE_UNKNOWN. */
  datatype AVProfile = AVProfile(profile: int, name: string)

  /** `ProfileIter`: the table (`None` for a null pointer) and the cursor into it. */
  datatype ProfileIter = ProfileIter(table: Option<seq<AVProfile>>, next: nat)

  predicate IsUnknown(p: AVProfile) { p.profile == FF_PROFILE_UNKNOWN }

  /** A cursor that can be dereferenced until a terminator: what the C side guarantees. */
  predicate Valid(it: ProfileIter)
  {
    it.table.Some? ==>
      exists k :: it.next <= k < |it.table.value| && IsUnknown(it.table.value[k])
  }

  function FromPtr(table: Option<seq<AVProfile>>): (it: ProfileIter)
    ensures it.next == 0 && it.table == table
  {
    ProfileIter(table, 0)
  }

  /** Whether `next` stops here: null pointer or the terminator entry. */
  predicate AtEnd(it: ProfileIter)
    requires Valid(it)
  {
    it.table.None? || IsUnknown(it.table.value[it.next])
  }

  /** `ProfileIter::next`: the entry under the cursor and the advanced iterator. */
  function Next(it: ProfileIter): (r: (Option<AVProfile>, ProfileIter))
    requires Valid(it)
    ensures r.0.None? <==> AtEnd(it)
    ensures r.0.None? ==> r.1 == it
    ensures r.0.Some? ==> (r.0.value == it.table.value[it.next]
      && r.1 == ProfileIter(it.table, it.next + 1))
    ensures Valid(r.1)
  {
    if it.table.None? || IsUnknown(it.table.value[it.next]) then (None, it)
    else (Some(it.table.value[it.next]), ProfileIter(it.table, it.next + 1))
  }

  /** Everything the iterator yields until its first `None`. */
  function Collect(it: ProfileIter): seq<AVProfile>
    requires Valid(it)
    decreases if it.table.Some? then |it.table.value| - it.next else 0
  {
    var (item, rest) := Next(it);
    match item
    case None => []
    case Some(p) => [p] + Collect(rest)
  }

  /** From a non-null cursor the iterator yields the entries before the terminator, in order. */
  lemma {:induction false} CollectIsPrefixBefore(it: ProfileIter)
    requires Valid(it) && it.table.Some?
    ensures Collect(it) == Sentinel.PrefixBefore(it.table.value[it.next..], IsUnknown)
    decreases |it.table.value| - it.next
  {
    var t := it.table.value;
    if IsUnknown(t[it.next]) {
    } else {
      var (_, rest) := Next(it);
      CollectIsPrefixBefore(rest);
      assert t[it.next..][1..] == t[it.next + 1..];
      Sentinel.PrefixBeforeStep(t[it.next..], IsUnknown);
    }
  }

  /** A whole table yields its prefix before FF_PROFILE_UNKNOWN; a null table yields nothing. */
  lemma TableYieldsPrefix(table: Option<seq<AVProfile>>)
    requires Valid(FromPtr(table))
    ensures table.None? ==> Collect(FromPtr(table)) == []
    ensures table.Some? ==> Collect(FromPtr(table)) == Sentinel.PrefixBefore(table.value, IsUnknown)
  {
    if table.Some? {
      CollectIsPrefixBefore(FromPtr(table));
      assert table.value[0..] == table.value;
    }
  }

  /** Once `next` has returned `None` it keeps returning `None`. */
  lemma ExhaustedStaysExhausted(it: ProfileIter)
    requires Valid(it) && Next(it).0.None?
    ensures Next(Next(it).1).0.None?
  {
  }
}
