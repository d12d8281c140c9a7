/**
 Prefetch mode refines sequential mode: while nobody cancels and no wait times out, the calls
 of the prefetching consumer return exactly what undisturbed calls of fetch_one return, up to
 a stopping point that is a function of those results alone.
 */
module Refinement {
  import opened Wire
  import opened Fetching
  import opened Prefetch

  // ---- The specification: which sequential results a prefetching consumer sees ----

  /** The stream stops after the k-th fetch cycle: the cursor is exhausted, or this cycle and
      the one before it both failed. */
  predicate StopsAfter(e: Setup, k: nat) {
    || Sequential(e, k + 1).core.cursor.exhausted
    || (k > 0 && !SequentialResult(e, k - 1).Ok() && !SequentialResult(e, k).Ok())
  }

  /** The k-th fetch cycle is begun. */
  predicate Live(e: Setup, k: nat) {
    !e.initial.exhausted && forall j :: 0 <= j < k ==> !StopsAfter(e, j)
  }

  /** What the k-th next_batch() of a prefetching engine returns. */
  function View(e: Setup, k: nat): Result {
    if Live(e, k) then SequentialResult(e, k) else Failed(EXHAUSTED)
  }

  // ---- Facts about the sequential runs ----

  lemma {:induction false} SequentialPrefix(e: Setup, i: nat, n: nat)
    requires i < n
    ensures Sequential(e, n).fetches[i] == Last(Sequential(e, i + 1))
  {
    if i + 1 < n { SequentialPrefix(e, i, n - 1); }
  }

  // ---- The simulation relation ----

  /** One fetch of lookahead: letting the newest cycle run on gives the sequential state. */
  predicate Exact(e: Setup, s: System) {
    Complete(e, s.lane) == Sequential(e, |s.lane.fetches|)
  }

  /** The consecutive-failure counter after the k-th fetch cycle was judged. */
  function FailuresAfter(e: Setup, k: int): nat {
    if k >= 0 && !SequentialResult(e, k).Ok() then 1 else 0
  }

  predicate Ahead(e: Setup, s: System) {
    var n := |s.lane.fetches|;
    n > 0 && Exact(e, s) && Live(e, n - 1) && s.failures == FailuresAfter(e, n - 2)
  }

  predicate Restarting(e: Setup, s: System) {
    var n := |s.lane.fetches|;
    n > 0 && Exact(e, s) && Live(e, n) && s.failures == FailuresAfter(e, n - 1)
  }

  predicate Stopped(e: Setup, s: System) {
    var n := |s.lane.fetches|;
    && !Live(e, n) && (n > 0 ==> Live(e, n - 1))
    && s.lane.fetches == Sequential(e, n).fetches
    && forall i :: n <= i < |s.returned| ==> s.returned[i].result == Failed(EXHAUSTED)
  }

  predicate Simulates(e: Setup, s: System) {
    match s.consumer
    case Idle => if s.inFlight then Ahead(e, s) else Stopped(e, s)
    case Waiting(_) => Ahead(e, s)
    case Collected(_, _) => Ahead(e, s)
    case Deciding(_, _, _) => Ahead(e, s)
    case Joining(_, _) => Restarting(e, s)
    case Arming(_, _) => Restarting(e, s)
    case Spawning(_, _) => Restarting(e, s)
    case Stopping(_, _) =>
      var n := |s.lane.fetches|;
      n > 0 && Exact(e, s) && Live(e, n - 1) && !Live(e, n)
    case _ => false
  }

  /** In sequential mode there is no lookahead. */
  predicate SimulatesInline(e: Setup, s: System) {
    Exact(e, s)
  }

  predicate Sim(e: Setup, s: System) {
    s.lane.core.cancelled
    || if Enabled(e) then Simulates(e, s) else SimulatesInline(e, s)
  }

  lemma CancelStays(e: Setup, s: System, a: Action)
    ensures s.lane.core.cancelled ==> Do(e, s, a).lane.core.cancelled
  {
  }

  lemma WorkSim(e: Setup, s: System, i: nat)
    requires Inv(e, s) && Sim(e, s)
    ensures Sim(e, DoWork(e, s, i))
  {
    var s' := DoWork(e, s, i);
    if s' != s {
      assert i == Newest(s);
      assert s'.lane == StepFetch(e, s.lane);
      CompleteAfterStep(e, s.lane);
    }
  }

  lemma SpawnSim(e: Setup, s: System)
    requires Inv(e, s) && Sim(e, s) && s.consumer.Spawning?
    ensures Sim(e, DoConsume(s))
  {
    if !s.lane.core.cancelled {
      assert Quiet(s.lane);
      assert DoConsume(s).lane == BeginFetch(Sequential(e, |s.lane.fetches|));
    }
  }

  /** Once the newest cycle has returned, the engine is where sequential mode would be. */
  lemma HeldIsSequential(e: Setup, s: System, r: Result)
    requires HeldInv(s, r) && !s.timedOut && Exact(e, s)
    ensures s.lane == Sequential(e, |s.lane.fetches|)
    ensures r == SequentialResult(e, |s.lane.fetches| - 1)
  {
  }

  /** The verdict on a collected result, with the counter telling whether the one before failed. */
  lemma Verdict(s: System, r: Result, exhausted: bool, late: bool, failedBefore: bool)
    requires !s.lane.core.cancelled && s.failures == if failedBefore then 1 else 0
    ensures Decide(s, r, exhausted, late) ==
      if exhausted || (failedBefore && !r.Ok())
      then s.(failures := if r.Ok() then 0 else s.failures, consumer := Stopping(r, late))
      else s.(failures := if r.Ok() then 0 else 1, consumer := Joining(r, late))
  {
  }

  lemma DecideSim(e: Setup, s: System)
    requires Enabled(e) && !s.lane.core.cancelled && Ahead(e, s) && s.consumer.Deciding?
    requires HeldInv(s, s.consumer.result) && s.consumer.exhausted == s.lane.core.cursor.exhausted
    requires !s.timedOut
    ensures Simulates(e, Decide(s, s.consumer.result, s.consumer.exhausted, s.consumer.late))
  {
    var n := |s.lane.fetches|;
    var failedBefore := n >= 2 && !SequentialResult(e, n - 2).Ok();
    HeldIsSequential(e, s, s.consumer.result);
    Verdict(s, s.consumer.result, s.consumer.exhausted, s.consumer.late, failedBefore);
    assert StopsAfter(e, n - 1) <==> s.consumer.exhausted || (failedBefore && !s.consumer.result.Ok());
  }

  lemma StopSim(e: Setup, s: System)
    requires Inv(e, s) && Sim(e, s) && s.consumer.Stopping?
    ensures Sim(e, DoConsume(s))
  {
    if !s.lane.core.cancelled {
      assert Quiet(s.lane);
    }
  }

  lemma InlineCallSim(e: Setup, s: System)
    requires OneWorker(s) && SequentialInv(s) && s.consumer.Idle? && !Enabled(e)
    requires SimulatesInline(e, s)
    ensures SimulatesInline(e, DoCall(e, s))
  {
    assert Quiet(s.lane);
    assert DoCall(e, s).lane == BeginFetch(Sequential(e, |s.lane.fetches|));
  }

  lemma CallSim(e: Setup, s: System)
    requires Inv(e, s) && Sim(e, s)
    ensures Sim(e, DoCall(e, s))
  {
    if !Enabled(e) && s.consumer.Idle? && !s.lane.core.cancelled { InlineCallSim(e, s); }
  }

  lemma WaitSim(e: Setup, s: System)
    requires Inv(e, s) && Sim(e, s) && (s.consumer.Waiting? || s.consumer.Collected?)
    ensures Sim(e, DoConsume(s))
  {
  }

  lemma RestartSim(e: Setup, s: System)
    requires Inv(e, s) && Sim(e, s) && (s.consumer.Joining? || s.consumer.Arming?)
    ensures Sim(e, DoConsume(s))
  {
  }

  lemma InlineSim(e: Setup, s: System)
    requires Inv(e, s) && Sim(e, s) && s.consumer.Inline?
    ensures Sim(e, DoConsume(s))
  {
  }

  lemma CloseSim(e: Setup, s: System)
    requires Inv(e, s) && (s.consumer.Destroying? || s.consumer.Closing?)
    ensures Sim(e, DoConsume(s))
  {
  }

  lemma ConsumeSim(e: Setup, s: System)
    requires Inv(e, s) && Sim(e, s)
    ensures Sim(e, DoConsume(s))
  {
    match s.consumer
    case Spawning(_, _) => SpawnSim(e, s);
    case Deciding(_, _, _) => if !s.lane.core.cancelled { DecideSim(e, s); }
    case Stopping(_, _) => StopSim(e, s);
    case Destroying => CloseSim(e, s);
    case Closing => CloseSim(e, s);
    case Closed =>
    case Idle =>
    case Inline(_) => InlineSim(e, s);
    case Waiting(_) => WaitSim(e, s);
    case Collected(_, _) => WaitSim(e, s);
    case Joining(_, _) => RestartSim(e, s);
    case Arming(_, _) => RestartSim(e, s);
  }

  lemma QuietSim(e: Setup, s: System, a: Action)
    requires Inv(e, s) && Sim(e, s)
    requires a.Publish? || a.Timeout? || a.CancelSet? || a.CancelDone? || a.Destroy?
    requires a.CancelDone? ==> s.pendingDone > 0 ==> s.lane.core.cancelled
    ensures Sim(e, Do(e, s, a))
  {
  }

  predicate PendingInv(s: System) { s.pendingDone > 0 ==> s.lane.core.cancelled }

  lemma PendingStep(e: Setup, s: System, a: Action)
    requires PendingInv(s)
    ensures PendingInv(Do(e, s, a))
  {
    CancelStays(e, s, a);
  }

  /** Between its two stores a cancel() call has already set the flag. */
  lemma {:induction false} PendingMeansCancelled(e: Setup, acts: seq<Action>)
    ensures PendingInv(Exec(e, acts))
  {
    if acts != [] {
      PendingMeansCancelled(e, acts[..|acts| - 1]);
      PendingStep(e, Exec(e, acts[..|acts| - 1]), acts[|acts| - 1]);
    }
  }

  lemma SimStep(e: Setup, s: System, a: Action)
    requires Inv(e, s) && PendingInv(s) && Sim(e, s)
    ensures Sim(e, Do(e, s, a))
  {
    match a
    case Call => CallSim(e, s);
    case Consume => ConsumeSim(e, s);
    case Work(i) => WorkSim(e, s, i);
    case _ => QuietSim(e, s, a);
  }

  lemma InitialSim(e: Setup)
    ensures Sim(e, Initial(e))
  {
    assert Sequential(e, 0) == InitialLane(e);
    if Enabled(e) && !e.initial.exhausted {
      assert Initial(e).lane == BeginFetch(Sequential(e, 0));
      assert Sequential(e, 1) == Complete(e, BeginFetch(Sequential(e, 0)));
    }
  }

  lemma {:induction false} Simulation(e: Setup, acts: seq<Action>)
    ensures Sim(e, Exec(e, acts))
  {
    if acts == [] {
      InitialSim(e);
    } else {
      var before := acts[..|acts| - 1];
      Simulation(e, before);
      ProtocolInvariant(e, before);
      PendingMeansCancelled(e, before);
      SimStep(e, Exec(e, before), acts[|acts| - 1]);
    }
  }

  lemma HandedIsSequential(e: Setup, s: System, k: nat)
    requires Handed(s, k + 1)
    requires s.lane.fetches[k] == Sequential(e, |s.lane.fetches|).fetches[k]
    ensures s.returned[k].result == SequentialResult(e, k)
  {
    SequentialPrefix(e, k, |s.lane.fetches|);
  }

  /** What the simulation says about the calls answered from a fetch cycle, and about the rest. */
  lemma HandedOut(e: Setup, s: System, k: nat)
    requires Enabled(e) && !s.lane.core.cancelled && Inv(e, s) && Simulates(e, s)
    requires k < |s.returned|
    ensures k < |s.lane.fetches| ==>
              Handed(s, k + 1) && Live(e, |s.lane.fetches| - 1)
              && s.lane.fetches[k] == Sequential(e, |s.lane.fetches|).fetches[k]
    ensures k >= |s.lane.fetches| ==>
              !Live(e, |s.lane.fetches|) && s.returned[k].result == Failed(EXHAUSTED)
  {
  }

  /** With no cancel and no timeout (a timeout cancels), the k-th next_batch() of a prefetching
      engine returns what the k-th sequential fetch_one returns, errors included, up to the
      stopping point, and EXHAUSTED ever after. */
  lemma PrefetchRefinesSequential(e: Setup, acts: seq<Action>, k: nat)
    requires Enabled(e) && !Exec(e, acts).lane.core.cancelled
    requires k < |Exec(e, acts).returned|
    ensures Exec(e, acts).returned[k].result == View(e, k)
  {
    var s := Exec(e, acts);
    ProtocolInvariant(e, acts);
    Simulation(e, acts);
    HandedOut(e, s, k);
    if k < |s.lane.fetches| {
      HandedIsSequential(e, s, k);
      assert Live(e, k);
    } else {
      assert !Live(e, k);
    }
  }

  /** In sequential mode the k-th next_batch() is the k-th fetch_one. */
  lemma InlineIsSequential(e: Setup, acts: seq<Action>, k: nat)
    requires !Enabled(e) && !Exec(e, acts).lane.core.cancelled
    requires k < |Exec(e, acts).returned|
    ensures Exec(e, acts).returned[k].result == SequentialResult(e, k)
  {
    ProtocolInvariant(e, acts);
    Simulation(e, acts);
    HandedIsSequential(e, Exec(e, acts), k);
  }
}
