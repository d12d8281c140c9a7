/**
 What the caller of next_batch() receives, in both modes and under every schedule: a prefix of
 the accepted batches, hence of the fault-free page chain.
 */
module Delivery {
  import opened Wire
  import opened Fetching
  import opened Prefetch
  import opened Projection
  import opened Accounting
  import opened Chain

  /** The batches handed to the caller so far. */
  function Delivered(returned: seq<Return>): seq<Batch> {
    if returned == [] then []
    else Delivered(returned[..|returned| - 1]) + returned[|returned| - 1].result.batches
  }

  lemma {:induction false} YieldsSplit(fetches: seq<Fetch>, k: nat)
    requires k <= |fetches|
    ensures Yields(fetches[..k]) <= Yields(fetches)
  {
    if k == |fetches| {
      assert fetches[..k] == fetches;
    } else {
      var rest := fetches[..|fetches| - 1];
      assert rest[..k] == fetches[..k];
      YieldsSplit(rest, k);
    }
  }

  /** Calls answered from fetch cycles deliver exactly what those cycles yielded. */
  lemma {:induction false} HandedYields(s: System, k: nat)
    requires Handed(s, k)
    ensures Delivered(s.returned[..k]) == Yields(s.lane.fetches[..k])
  {
    if k > 0 {
      HandedYields(s, k - 1);
      assert s.returned[..k][..k - 1] == s.returned[..k - 1];
      assert s.lane.fetches[..k][..k - 1] == s.lane.fetches[..k - 1];
    }
  }

  /** Calls answered without a batch add nothing. */
  lemma {:induction false} BatchlessTail(returned: seq<Return>, k: nat)
    requires k <= |returned|
    requires forall i :: k <= i < |returned| ==> returned[i].result.batches == []
    ensures Delivered(returned) == Delivered(returned[..k])
  {
    if k == |returned| {
      assert returned[..k] == returned;
    } else {
      var rest := returned[..|returned| - 1];
      assert rest[..k] == returned[..k];
      BatchlessTail(rest, k);
    }
  }

  /** The calls answered from fetch cycles, and no others, delivered batches: all cycles but the
      newest, or all of them. */
  function HandedCount(e: Setup, s: System): nat {
    var n := |s.lane.fetches|;
    if s.inFlight || s.timedOut || (!s.consumer.Idle? && |s.returned| < n) then
      (if n == 0 then 0 else n - 1)
    else n
  }

  lemma HandedSoFar(e: Setup, s: System)
    requires Inv(e, s)
    ensures Handed(s, HandedCount(e, s))
    ensures forall i :: HandedCount(e, s) <= i < |s.returned| ==>
              s.returned[i].result.batches == [] && !s.returned[i].result.Ok()
  {
  }

  lemma DeliveredOf(e: Setup, s: System)
    requires Inv(e, s) && NothingLost(s.lane)
    ensures Delivered(s.returned) == Yields(s.lane.fetches[..HandedCount(e, s)])
    ensures Delivered(s.returned) <= Batches(s.lane.core.log)
  {
    var k := HandedCount(e, s);
    HandedSoFar(e, s);
    HandedYields(s, k);
    BatchlessTail(s.returned, k);
    YieldsSplit(s.lane.fetches, k);
  }

  lemma AtMostOneMissing(fetches: seq<Fetch>, k: nat)
    requires k <= |fetches| <= k + 1
    requires forall i :: 0 <= i < |fetches| ==> WellShaped(fetches[i])
    ensures |Yields(fetches)| - |Yields(fetches[..k])| <= 1
    ensures k == |fetches| ==> Yields(fetches[..k]) == Yields(fetches)
  {
    if k == |fetches| { assert fetches[..k] == fetches; }
  }

  predicate OneBatchEach(returned: seq<Return>) {
    forall k :: 0 <= k < |returned| ==>
      |returned[k].result.batches| == if returned[k].result.Ok() then 1 else 0
  }

  /** Every call that says OK returns one batch, every other call none. */
  lemma EngineShape(e: Setup, acts: seq<Action>)
    ensures OneBatchEach(Exec(e, acts).returned)
  {
    ProtocolInvariant(e, acts);
    ExecIsPlay(e, acts);
    EveryBatchYielded(e, Ticks(e, acts));
    HandedSoFar(e, Exec(e, acts));
  }

  /** What was delivered is a prefix of what was accepted: nothing reordered, repeated or
      invented. At most one batch is missing, and none while the engine rests with nothing in
      flight unless a wait has timed out. */
  lemma DeliveredPrefix(e: Setup, acts: seq<Action>)
    ensures var s := Exec(e, acts);
            && Delivered(s.returned) <= Batches(s.lane.core.log)
            && |s.lane.core.log| - |Delivered(s.returned)| <= 1
            && (s.consumer.Idle? && !s.inFlight && !s.timedOut
                ==> Delivered(s.returned) == Batches(s.lane.core.log))
  {
    var s := Exec(e, acts);
    ProtocolInvariant(e, acts);
    ExecIsPlay(e, acts);
    EveryBatchYielded(e, Ticks(e, acts));
    DeliveredOf(e, s);
    AtMostOneMissing(s.lane.fetches, HandedCount(e, s));
  }

  /** Fault transparency for the caller: in both modes, for every schedule of faults, cancels
      and timeouts, the batches delivered are a prefix of the fault-free page chain. */
  lemma DeliveredFromChain(e: Setup, server: Server, blind: bool, acts: seq<Action>)
    requires Transparent(e, server, blind)
    ensures var got := Delivered(Exec(e, acts).returned);
            forall i :: 0 <= i < |got| ==> Some(got[i]) == ChainBatch(e, server, i)
  {
    ExecIsPlay(e, acts);
    FaultTransparency(e, server, blind, Ticks(e, acts));
    DeliveredPrefix(e, acts);
  }

  /** success_count is the number of batches delivered, or one more. */
  lemma SuccessesAreDeliveries(e: Setup, acts: seq<Action>)
    requires Quiet(Exec(e, acts).lane)
    ensures var s := Exec(e, acts);
            0 <= s.lane.core.metrics.successes - |Delivered(s.returned)| <= 1
  {
    ExecIsPlay(e, acts);
    RequestConservation(e, Ticks(e, acts));
    DeliveredPrefix(e, acts);
  }
}
