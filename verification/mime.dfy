/** `src/codec/mime.rs`: iteration over a NULL-terminated array of C strings. */
module MimeTypes {
  import opened Wrappers
  import Sentinel

  /** `MimeTypeIter`: the entries (`None` for a null pointer; a `None` entry is a null string) and the cursor. */
  datatype MimeTypeIter = MimeTypeIter(entries: Option<seq<Option<string>>>, pos: nat)

  predicate IsNullEntry(e: Option<string>) { e.None? }

  /** The C side guarantees a null entry at or after the cursor. */
  predicate Valid(it: MimeTypeIter)
  {
    it.entries.Some? ==>
      exists k :: it.pos <= k < |it.entries.value| && IsNullEntry(it.entries.value[k])
  }

  function FromPtr(entries: Option<seq<Option<string>>>): (it: MimeTypeIter)
    ensures it.pos == 0 && it.entries == entries
  {
    MimeTypeIter(entries, 0)
  }

  predicate AtEnd(it: MimeTypeIter)
    requires Valid(it)
  {
    it.entries.None? || it.entries.value[it.pos].None?
  }

  /** `MimeTypeIter::next`. */
  function Next(it: MimeTypeIter): (r: (Option<string>, MimeTypeIter))
    requires Valid(it)
    ensures r.0.None? <==> AtEnd(it)
    ensures r.0.None? ==> r.1 == it
    ensures r.0.Some? ==> (Some(r.0.value) == it.entries.value[it.pos]
      && r.1 == MimeTypeIter(it.entries, it.pos + 1))
    ensures Valid(r.1)
  {
    if it.entries.None? || it.entries.value[it.pos].None? then (None, it)
    else (it.entries.value[it.pos], MimeTypeIter(it.entries, it.pos + 1))
  }

  /** Everything the iterator yields until its first `None`. */
  function Collect(it: MimeTypeIter): seq<string>
    requires Valid(it)
    decreases if it.entries.Some? then |it.entries.value| - it.pos else 0
  {
    var (item, rest) := Next(it);
    match item
    case None => []
    case Some(s) => [s] + Collect(rest)
  }

  /** The strings of the entries in `s`. */
  function Strings(s: seq<Option<string>>): (r: seq<string>)
    requires forall i :: 0 <= i < |s| ==> s[i].Some?
    ensures |r| == |s|
    ensures forall i :: 0 <= i < |s| ==> Some(r[i]) == s[i]
  {
    if |s| == 0 then [] else [s[0].value] + Strings(s[1..])
  }

  /** From a non-null cursor the iterator yields the strings before the first null entry, in order. */
  lemma {:induction false} CollectIsPrefixBefore(it: MimeTypeIter)
    requires Valid(it) && it.entries.Some?
    ensures var p := Sentinel.PrefixBefore(it.entries.value[it.pos..], IsNullEntry);
      (forall i :: 0 <= i < |p| ==> p[i].Some?) && Collect(it) == Strings(p)
    decreases |it.entries.value| - it.pos
  {
    var a := it.entries.value;
    Sentinel.PrefixBeforeIsLongestClean(a[it.pos..], IsNullEntry);
    if a[it.pos].None? {
    } else {
      var (_, rest) := Next(it);
      CollectIsPrefixBefore(rest);
      assert a[it.pos..][1..] == a[it.pos + 1..];
      Sentinel.PrefixBeforeStep(a[it.pos..], IsNullEntry);
      var p := Sentinel.PrefixBefore(a[it.pos..], IsNullEntry);
      assert p[1..] == Sentinel.PrefixBefore(a[it.pos + 1..], IsNullEntry);
    }
  }

  /** A null array yields nothing. */
  lemma NullYieldsNothing()
    ensures Collect(FromPtr(None)) == []
  {
  }

  /** Once `next` has returned `None` it keeps returning `None`. */
  lemma ExhaustedStaysExhausted(it: MimeTypeIter)
    requires Valid(it) && Next(it).0.None?
    ensures Next(Next(it).1).0.None?
  {
  }
}
