/**
 What stream() does, in both modes: it calls next_batch() in a loop, passes each batch to a
 callback, and ends with a verdict.
 */
module Streams {
  import opened Wire
  import opened Fetching
  import opened Prefetch
  import opened Chain
  import opened Delivery
  import opened Completion

  /** stream() is still looping after `turns` calls, all OK: it passed the batch of each, in order,
      and the callback kept every one. */
  predicate Streaming(
    before: System, after: System, keep: nat -> bool, turns: nat,
    passed: seq<Batch>)
  {
    before.returned <= after.returned &&
    var results := after.returned[|before.returned|..];
    && |results| == turns == |passed| && AllOk(results)
    && passed == Delivered(results)
    && forall i :: 0 <= i < |passed| ==> keep(i)
  }

  /** What stream() did between two states. It passed the batches of its calls in order, and the
      callback kept all of them, unless it stopped the stream with the last one. None: every turn
      was used. OK: an exhausted cursor ended it, or has_next() was false with no cancel. CANCELLED:
      the callback stopped it, the flag is set, or a call said so. Any other verdict is the failure
      of its last call. */
  predicate Streamed(
    before: System, after: System, keep: nat -> bool, turns: nat,
    verdict: Option<Code>, passed: seq<Batch>)
  {
    before.returned <= after.returned &&
    var results := after.returned[|before.returned|..];
    var n, k := |results|, |passed|;
    && n <= turns && passed == Delivered(results)
    && (forall i :: 0 <= i < k - 1 ==> keep(i))
    && (n > 0 ==> AllOk(results[..n - 1]))
    && match verdict
       case None => n == turns && AllOk(results) && (k > 0 ==> keep(k - 1))
       case Some(code) =>
         var last := if n > 0 then results[n - 1].result else Failed(OK);
         if n > 0 && !last.Ok() then
           && last == Failed(if code == OK then EXHAUSTED else code) && code != EXHAUSTED
           && (k > 0 ==> keep(k - 1))
         else if k > 0 && !keep(k - 1) then code == CANCELLED
         else
           && code == (if after.lane.core.cancelled then CANCELLED else OK)
           && (code == OK ==> !HasNext(after))
  }

  lemma StreamStarts(s: System, keep: nat -> bool)
    ensures Streaming(s, s, keep, 0, [])
  {
  }

  lemma StreamRunsOut(
    before: System, s: System, keep: nat -> bool, turns: nat, passed: seq<Batch>)
    requires Streaming(before, s, keep, turns, passed)
    ensures Streamed(before, s, keep, turns, None, passed)
  {
  }

  lemma StreamEnds(
    before: System, s: System, after: System, keep: nat -> bool,
    turn: nat, turns: nat, code: Code, passed: seq<Batch>)
    requires Streaming(before, s, keep, turn, passed) && turn <= turns
    requires after.returned == s.returned
    requires code == if after.lane.core.cancelled then CANCELLED else OK
    requires code == OK ==> !HasNext(after)
    ensures Streamed(before, after, keep, turns, Some(code), passed)
  {
  }

  lemma StreamTurns(
    before: System, s: System, after: System, keep: nat -> bool,
    turn: nat, turns: nat, passed: seq<Batch>, r: Return)
    requires Streaming(before, s, keep, turn, passed) && turn < turns
    requires after.returned == s.returned + [r]
    requires |r.result.batches| == if r.result.Ok() then 1 else 0
    ensures r.result.Ok() && keep(turn)
            ==> Streaming(before, after, keep, turn + 1, passed + r.result.batches)
    ensures r.result.Ok() && !keep(turn)
            ==> Streamed(before, after, keep, turns, Some(CANCELLED), passed + r.result.batches)
    ensures !r.result.Ok() ==>
              var code := if r.result.error == EXHAUSTED then OK else r.result.error;
              Streamed(before, after, keep, turns, Some(code), passed)
  {
    var results := s.returned[|before.returned|..];
    assert after.returned[|before.returned|..] == results + [r];
    assert (results + [r])[..|results|] == results;
    assert r.result == Result(r.result.error, r.result.batches);
  }

  /** stream() returning OK on a fresh engine has passed every page of the chain, in order. */
  lemma StreamIsHonest(
    e: Setup, server: Server, blind: bool, acts: seq<Action>, keep: nat -> bool,
    turns: nat, passed: seq<Batch>)
    requires Transparent(e, server, blind) && Exec(e, acts).consumer.Idle?
    requires Streamed(Initial(e), Exec(e, acts), keep, turns, Some(OK), passed)
    ensures forall i :: 0 <= i < |passed| ==> Some(passed[i]) == ChainBatch(e, server, i)
    ensures ChainEnds(e, server, |passed|)
  {
    StreamSays(Initial(e), Exec(e, acts), keep, turns, passed);
    CompletionIsHonest(e, server, blind, acts);
  }

  lemma StreamSays(
    before: System, s: System, keep: nat -> bool, turns: nat, passed: seq<Batch>)
    requires before.returned == [] && s.consumer.Idle?
    requires Streamed(before, s, keep, turns, Some(OK), passed)
    ensures StreamSaysOk(s) && passed == Delivered(s.returned)
  {
    assert s.returned[0..] == s.returned;
    var k := |s.returned|;
    if k > 0 { assert s.returned == s.returned[..k - 1] + [s.returned[k - 1]]; }
  }
}
