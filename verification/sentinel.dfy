/**
 * Reference definition for the binding's walks over C arrays that end
 * at a sentinel entry (pixel-format lists, profile tables, MIME lists).
 */
module Sentinel {

  /** The entries of `s` before its first `stop` entry (all of `s` when there is none). */
  function PrefixBefore<T>(s: seq<T>, stop: T -> bool): (p: seq<T>)
    ensures |p| <= |s|
  {
    if |s| == 0 || stop(s[0]) then [] else [s[0]] + PrefixBefore(s[1..], stop)
  }

  /** `PrefixBefore` is the longest prefix free of sentinels. */
  lemma {:induction false} PrefixBeforeIsLongestClean<T>(s: seq<T>, stop: T -> bool)
    ensures PrefixBefore(s, stop) == s[..|PrefixBefore(s, stop)|]
    ensures forall i :: 0 <= i < |PrefixBefore(s, stop)| ==> !stop(s[i])
    ensures |PrefixBefore(s, stop)| < |s| ==> stop(s[|PrefixBefore(s, stop)|])
    decreases |s|
  {
    if |s| == 0 || stop(s[0]) {
    } else {
      PrefixBeforeIsLongestClean(s[1..], stop);
    }
  }

  /** Conversely, a clean prefix followed by a sentinel is `PrefixBefore`. */
  lemma {:induction false} CleanPrefixIsPrefixBefore<T>(s: seq<T>, stop: T -> bool, n: nat)
    requires n < |s| && stop(s[n])
    requires forall i :: 0 <= i < n ==> !stop(s[i])
    ensures PrefixBefore(s, stop) == s[..n]
    decreases n
  {
    if n == 0 {
    } else {
      CleanPrefixIsPrefixBefore(s[1..], stop, n - 1);
      assert s[..n] == [s[0]] + s[1..][..n - 1];
    }
  }

  /** Dropping one clean entry from the front drops it from `PrefixBefore`. */
  lemma PrefixBeforeStep<T>(s: seq<T>, stop: T -> bool)
    requires |s| > 0 && !stop(s[0])
    ensures PrefixBefore(s, stop) == [s[0]] + PrefixBefore(s[1..], stop)
  {
  }
}
