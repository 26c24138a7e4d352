/**
 * The receive side shared by the encoders and the decoder: how a
 * receive return code is read, the drain a dropped iterator performs,
 * and the packet-handler loop of `send_frame`.
 */
module Draining {
  import opened Ints
  import opened Wrappers
  import opened Ffi
  import opened AvErrors
  import Sentinel

  /** EAGAIN and EOF end a receive sequence; they are not errors. */
  predicate IsEnd(code: int) { code == AVERROR_EAGAIN || code == AVERROR_EOF }

  /**
   * One step of `Packets::next` / `Frames::next`: `None` for EAGAIN or
   * EOF, an error carrying any other negative code, and the received
   * item for every other code. `what` is the iterator's message.
   */
  function Next<T>(code: int, item: T, what: string): (r: Option<Result<T, Error>>)
    ensures r.None? <==> IsEnd(code)
    ensures r == Some(Ok(item)) <==> code >= 0
    ensures r.Some? && r.value.Err? <==> code < 0 && !IsEnd(code)
    ensures r.Some? && r.value.Err? ==> r.value.error == MsgWithCode(what, code)
  {
    if code < 0 then
      if IsEnd(code) then None else Some(Err(MsgWithCode(what, code)))
    else Some(Ok(item))
  }

  /** The ending codes are negative, so no received item is ever mistaken for the end. */
  lemma EndCodesAreNegative(code: int)
    requires IsEnd(code)
    ensures code < 0
  {
  }

  /** Receive calls that reported an error (negative, but not an end). */
  function Failures(codes: seq<int>): (n: nat)
    ensures n <= |codes|
  {
    if |codes| == 0 then 0
    else (if codes[0] < 0 && !IsEnd(codes[0]) then 1 else 0) + Failures(codes[1..])
  }

  lemma FailuresAppend(codes: seq<int>, code: int)
    ensures Failures(codes + [code]) == Failures(codes) + (if code < 0 && !IsEnd(code) then 1 else 0)
  {
    if |codes| > 0 {
      assert (codes + [code])[1..] == codes[1..] + [code];
      FailuresAppend(codes[1..], code);
    }
  }

  /**
   * The `Drop` of `Packets` and `Frames` (`for _ in self {}`): keep
   * receiving, through errors, until the first EAGAIN or EOF. `codes`
   * are the codes the library returns, in order; the loop only ends if
   * one of them is an end code. Returns how many receive calls ran and
   * how many of them failed.
   */
  method DrainOnDrop(codes: seq<int>) returns (calls: nat, failures: nat)
    requires exists i :: 0 <= i < |codes| && IsEnd(codes[i])
    ensures 0 < calls <= |codes| && IsEnd(codes[calls - 1])
    ensures forall j :: 0 <= j < calls - 1 ==> !IsEnd(codes[j])
    ensures calls - 1 == |Sentinel.PrefixBefore(codes, IsEnd)|
    ensures failures == Failures(codes[..calls - 1])
  {
    var i := 0;
    failures := 0;
    while !IsEnd(codes[i])
      invariant 0 <= i < |codes|
      invariant exists e :: i <= e < |codes| && IsEnd(codes[e])
      invariant forall j :: 0 <= j < i ==> !IsEnd(codes[j])
      invariant failures == Failures(codes[..i])
      decreases |codes| - i
    {
      FailuresAppend(codes[..i], codes[i]);
      assert codes[..i + 1] == codes[..i] + [codes[i]];
      if codes[i] < 0 {
        failures := failures + 1;
      }
      i := i + 1;
    }
    calls := i + 1;
    Sentinel.CleanPrefixIsPrefixBefore(codes, IsEnd, i);
  }

  /** What the packet-handler loop records, in order. */
  datatype Event = Handled(packet: nat) | Unref(packet: nat)

  /** `n` packets each handed to the handler and then unref'd. */
  function HandledPackets(n: nat): (log: seq<Event>)
    ensures |log| == 2 * n
  {
    if n == 0 then [] else HandledPackets(n - 1) + [Handled(n - 1), Unref(n - 1)]
  }

  /** Packet `k` is handled at position `2k` of the log and unref'd right after. */
  lemma {:induction false} HandledPacketsLayout(n: nat)
    ensures forall k :: 0 <= k < n ==>
      HandledPackets(n)[2 * k] == Handled(k) && HandledPackets(n)[2 * k + 1] == Unref(k)
  {
    if n > 0 {
      var prev := HandledPackets(n - 1);
      HandledPacketsLayout(n - 1);
      assert HandledPackets(n) == prev + [Handled(n - 1), Unref(n - 1)];
      forall k | 0 <= k < n
        ensures HandledPackets(n)[2 * k] == Handled(k) && HandledPackets(n)[2 * k + 1] == Unref(k)
      {
        if k < n - 1 {
          assert 2 * k + 1 < |prev|;
          assert prev[2 * k] == Handled(k) && prev[2 * k + 1] == Unref(k);
        } else {
          assert 2 * k == |prev|;
        }
      }
    }
  }

  /**
   * Whether the receive codes and the handler's answers decide the
   * loop: some call returns a non-zero code, or the handler fails on
   * the packet received by an earlier zero code.
   */
  predicate Decided(codes: seq<int>, handler: nat -> Result<(), string>)
  {
    exists i :: 0 <= i < |codes| && (codes[i] != 0 || handler(i).Err?)
  }

  /** The index of the call that ends the loop. */
  function Stop(codes: seq<int>, handler: nat -> Result<(), string>, from: nat): (n: nat)
    requires from <= |codes|
    requires exists i :: from <= i < |codes| && (codes[i] != 0 || handler(i).Err?)
    ensures from <= n < |codes| && (codes[n] != 0 || handler(n).Err?)
    ensures forall j :: from <= j < n ==> codes[j] == 0 && handler(j).Ok?
    decreases |codes| - from
  {
    if codes[from] != 0 || handler(from).Err? then from else Stop(codes, handler, from + 1)
  }

  datatype LoopOutcome = LoopOutcome(result: Result<(), string>, log: seq<Event>)

  /**
   * The receive loop of `send_frame` in both encoders. Call `i` returns
   * `codes[i]`; a zero code is the `i`-th packet, which goes to the
   * handler (whose answer is `handler(i)`) and is unref'd before a
   * handler error is passed on. EAGAIN and EOF end the loop with `Ok`;
   * every other code, positive ones included, is an error.
   */
  method PacketLoop(codes: seq<int>, handler: nat -> Result<(), string>) returns (out: LoopOutcome)
    requires Decided(codes, handler)
    ensures var n := Stop(codes, handler, 0);
      && (codes[n] == 0 ==> out == LoopOutcome(Err(handler(n).error), HandledPackets(n + 1)))
      && (IsEnd(codes[n]) ==> out == LoopOutcome(Ok(()), HandledPackets(n)))
      && (codes[n] != 0 && !IsEnd(codes[n]) ==> out == LoopOutcome(Err("Error encoding packet"), HandledPackets(n)))
  {
    var n := Stop(codes, handler, 0);
    var i := 0;
    var log := [];
    while codes[i] == 0 && handler(i).Ok?
      invariant 0 <= i <= n
      invariant log == HandledPackets(i)
      decreases n - i
    {
      log := log + [Handled(i), Unref(i)];
      i := i + 1;
    }
    if codes[i] == 0 {
      // the handler's answer is only passed on after the unref
      log := log + [Handled(i), Unref(i)];
      out := LoopOutcome(Err(handler(i).error), log);
    } else if IsEnd(codes[i]) {
      out := LoopOutcome(Ok(()), log);
    } else {
      out := LoopOutcome(Err("Error encoding packet"), log);
    }
  }

  /**
   * How the packet loop of `send_frame` ends, as the binding reports it
   * (the loop's string errors become message errors): the handler's
   * error after the failing packet is unref'd, `Ok` on EAGAIN or EOF,
   * and "Error encoding packet" on any other non-zero code.
   */
  predicate LoopEnds(codes: seq<int>, handler: nat -> Result<(), string>, result: Result<(), Error>, log: seq<Event>)
    requires Decided(codes, handler)
  {
    var n := Stop(codes, handler, 0);
    if codes[n] == 0 then result == Err(Msg(handler(n).error)) && log == HandledPackets(n + 1)
    else if IsEnd(codes[n]) then result == Ok(()) && log == HandledPackets(n)
    else result == Err(Msg("Error encoding packet")) && log == HandledPackets(n)
  }

  /** The handler sees the packets in order, each exactly once, and each is unref'd right after. */
  lemma HandlerSeesPacketsInOrder(n: nat, k: nat)
    requires k < n
    ensures HandledPackets(n)[2 * k] == Handled(k) && HandledPackets(n)[2 * k + 1] == Unref(k)
    ensures forall j :: 0 <= j < |HandledPackets(n)| && HandledPackets(n)[j] == Handled(k) ==> j == 2 * k
  {
    var log := HandledPackets(n);
    HandledPacketsLayout(n);
    forall j | 0 <= j < |log| && log[j] == Handled(k)
      ensures j == 2 * k
    {
      var m := j / 2;
      assert j == 2 * m || j == 2 * m + 1;
      assert log[2 * m] == Handled(m) && log[2 * m + 1] == Unref(m);
    }
  }
}
