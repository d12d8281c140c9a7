/**
 A prefetching consumer that loops while has_next() drains a finite chain in a bounded number
 of calls and requests; and no thread of the protocol is ever stuck.
 */
module Drain {
  import opened Wire
  import opened Fetching
  import opened Prefetch
  import opened Projection
  import opened Accounting
  import opened Chain
  import opened Delivery
  import opened Schedules
  import opened Faultless

  /** At most one call in two fails, and the chain is not yet delivered. */
  predicate Midway(s: System, N: nat) {
    && s.failures <= 1 && |Delivered(s.returned)| < N
    && |s.lane.fetches| <= 2 * |Delivered(s.returned)| + s.failures + 1
  }

  /** The same once the result in hand is counted. */
  predicate Continuing(s: System, r: Result) {
    && s.failures <= 1
    && |s.lane.fetches| <= 2 * (|Delivered(s.returned)| + |r.batches|) + s.failures
  }

  predicate DrainInv(s: System, N: nat) {
    && |s.lane.fetches| <= 2 * N
    && match s.consumer
       case Idle => s.inFlight ==> Midway(s, N)
       case Waiting(_) => Midway(s, N)
       case Collected(r, _) => Midway(s, N)
       case Deciding(r, _, _) => Midway(s, N)
       case Joining(r, _) => Continuing(s, r)
       case Arming(r, _) => Continuing(s, r)
       case Spawning(r, _) => Continuing(s, r)
       case _ => true
  }

  /** An accepted prefix of an N-page chain has at most N pages, and fewer while the cursor is
      not exhausted. */
  lemma ShortOfTheEnd(e: Setup, server: Server, blind: bool, N: nat, c: Core)
    requires ChainEnds(e, server, N) && LogOnChain(e, server, c.log)
    requires Same(blind, c.cursor, ChainCursor(e, server, |c.log|))
    ensures |c.log| <= N && (!c.cursor.exhausted ==> |c.log| < N)
  {
    assert |c.log| > N ==> !ChainCursor(e, server, N).exhausted;
  }

  lemma OneMoreDelivered(returned: seq<Return>, r: Return)
    ensures Delivered(returned + [r]) == Delivered(returned) + r.result.batches
  {
    assert (returned + [r])[..|returned|] == returned;
  }

  /** When the next worker is started, everything accepted has been delivered. */
  lemma AllHandedAtSpawn(e: Setup, s: System)
    requires Enabled(e) && Inv(e, s) && NothingLost(s.lane) && s.consumer.Spawning?
    ensures |Delivered(s.returned)| + |s.consumer.result.batches| == |s.lane.core.log|
  {
    var n := |s.lane.fetches|;
    HandedYields(s, n - 1);
    assert s.returned[..n - 1] == s.returned;
  }

  lemma SpawnDrains(e: Setup, s: System, N: nat)
    requires Enabled(e) && Inv(e, s) && NothingLost(s.lane) && DrainInv(s, N)
    requires s.consumer.Spawning? && |s.lane.core.log| < N
    ensures DrainInv(DoConsume(s), N)
  {
    AllHandedAtSpawn(e, s);
    OneMoreDelivered(s.returned, Return(s.consumer.result, s.consumer.late));
  }

  lemma JudgeDrains(e: Setup, s: System, N: nat)
    requires Enabled(e) && Inv(e, s) && NothingLost(s.lane) && DrainInv(s, N)
    requires s.consumer.Deciding?
    ensures DrainInv(DoConsume(s), N)
  {
    var r := s.consumer.result;
    assert r.Ok() ==> |r.batches| == 1;
  }

  lemma ConsumeDrains(e: Setup, s: System, N: nat)
    requires Enabled(e) && PrefetchInv(s) && DrainInv(s, N)
    requires !s.consumer.Spawning? && !s.consumer.Deciding?
    ensures DrainInv(DoConsume(s), N)
  {
    if s.consumer.Stopping? {
      OneMoreDelivered(s.returned, Return(s.consumer.result, s.consumer.late));
    }
  }

  lemma CallDrains(e: Setup, s: System, N: nat)
    requires Enabled(e) && DrainInv(s, N)
    ensures DrainInv(DoCall(e, s), N)
  {
  }

  lemma OtherDrains(e: Setup, s: System, N: nat, a: Action)
    requires Enabled(e) && PrefetchInv(s) && DrainInv(s, N) && !a.Call? && !a.Consume?
    ensures DrainInv(Do(e, s, a), N)
  {
  }

  lemma DrainStep(e: Setup, s: System, N: nat, a: Action)
    requires Enabled(e) && Inv(e, s) && NothingLost(s.lane) && DrainInv(s, N)
    requires !s.lane.core.cursor.exhausted ==> |s.lane.core.log| < N
    ensures DrainInv(Do(e, s, a), N)
  {
    match a
    case Call => CallDrains(e, s, N);
    case Consume =>
      if s.consumer.Spawning? { SpawnDrains(e, s, N); }
      else if s.consumer.Deciding? { JudgeDrains(e, s, N); }
      else { ConsumeDrains(e, s, N); }
    case _ => OtherDrains(e, s, N, a);
  }

  lemma {:induction false} DrainHolds(
    e: Setup, server: Server, blind: bool, N: nat, acts: seq<Action>)
    requires Enabled(e) && Transparent(e, server, blind) && ChainEnds(e, server, N)
    ensures DrainInv(Exec(e, acts), N)
  {
    if acts == [] {
      assert N == 0 ==> ChainCursor(e, server, 0).exhausted;
    } else {
      var before := acts[..|acts| - 1];
      var s := Exec(e, before);
      DrainHolds(e, server, blind, N, before);
      ProtocolInvariant(e, before);
      ExecIsPlay(e, before);
      EveryBatchYielded(e, Ticks(e, before));
      FaultTransparency(e, server, blind, Ticks(e, before));
      ShortOfTheEnd(e, server, blind, N, s.lane.core);
      DrainStep(e, s, N, acts[|acts| - 1]);
    }
  }

  /** On an N-page chain, under every schedule of faults, cancels and timeouts: whenever
      has_next() is true fewer than 2N calls have returned, so a `while (has_next) next_batch`
      loop makes at most 2N calls; and there are at most 2N(max_retries + 1) requests ever. */
  lemma DrainTerminates(e: Setup, server: Server, blind: bool, N: nat, acts: seq<Action>)
    requires Enabled(e) && Transparent(e, server, blind) && ChainEnds(e, server, N)
    ensures var s := Exec(e, acts);
            && (s.consumer.Idle? && HasNext(s) ==> |s.returned| < 2 * N)
            && s.lane.core.metrics.requests <= 2 * N * (e.policy.maxRetries + 1)
  {
    var s := Exec(e, acts);
    DrainHolds(e, server, blind, N, acts);
    ProtocolInvariant(e, acts);
    ExecIsPlay(e, acts);
    RequestsPerFetch(e, Ticks(e, acts));
    Scale(e.policy.maxRetries + 1, |s.lane.fetches|, 2 * N);
  }

  lemma Scale(m: nat, a: nat, b: nat)
    requires a <= b
    ensures m * a <= b * m
  {
    assert m * (b - a) >= 0;
  }

  // ---- Progress ----

  /** While a next_batch() call or the destructor is under way, some thread of the engine can
      move: the consumer, or the newest fetch cycle. There is no deadlock. */
  lemma NeverStuck(e: Setup, acts: seq<Action>) returns (a: Action)
    ensures var s := Exec(e, acts);
            !s.consumer.Idle? && !s.consumer.Closed? ==>
              Do(e, s, a) != s && (a.Consume? || a.Work? || a.Publish?)
  {
    var s := Exec(e, acts);
    ProtocolInvariant(e, acts);
    a := Consume;
    if !s.consumer.Idle? && !s.consumer.Closed? { a := NextMove(e, s); }
  }

  lemma NextMove(e: Setup, s: System) returns (a: Action)
    requires Inv(e, s) && !s.consumer.Idle? && !s.consumer.Closed?
    ensures Do(e, s, a) != s && (a.Consume? || a.Work? || a.Publish?)
  {
    if s.consumer.Inline? {
      a := if Running(Last(s.lane)) then Work(Newest(s)) else Consume;
      if Running(Last(s.lane)) { WorkMoves(e, s); }
    } else if (s.consumer.Waiting? && !s.ready) || (s.consumer.Closing? && !Joinable(s)) {
      a := if Running(Last(s.lane)) then Work(Newest(s)) else Publish(Newest(s));
      if Running(Last(s.lane)) { WorkMoves(e, s); }
    } else {
      a := Consume;
    }
  }

  lemma WorkMoves(e: Setup, s: System)
    requires s.lane.fetches != [] && Running(Last(s.lane))
    requires if Enabled(e) then Newest(s) in s.alive else s.consumer.Inline?
    ensures DoWork(e, s, Newest(s)) != s
  {
    StepMoves(e, Last(s.lane), s.lane.core);
  }

  lemma StepMoves(e: Setup, f: Fetch, c: Core)
    requires Running(f)
    ensures Step(e, f, c).0.pc != f.pc
  {
  }

  // ---- A sequential drain need not end ----

  /** Every request is answered with a client error, and nothing else stands in the way. */
  ghost predicate RefusesAll(e: Setup) {
    && !e.initial.exhausted && !BudgetExceeded(e.policy, 0.0)
    && forall n: nat, req: Request :: IsClientError(e.transport(n, req))
  }

  lemma RefusedFetch(e: Setup, l: Lane)
    requires IsClientError(Answer(e, l.core)) && Quiet(l)
    requires !l.core.cancelled && !l.core.cursor.exhausted && !BudgetExceeded(e.policy, l.core.spent)
    ensures var l' := Complete(e, BeginFetch(l));
            && Last(l').pc == Returned(Failed(CLIENT)) && l'.core.done == l.core.done
            && !l'.core.cancelled
            && l'.core.cursor == l.core.cursor && l'.core.spent == l.core.spent
  {
    var f, c := Begin(l.core), l.core;
    var f1 := f.(pc := Handle(e.adapter.build(c.cursor), Answer(e, c)), sent := f.sent + 1);
    ReachesLoop(e, c);
    SendsRequest(e, f.(pc := Loop), c);
    RunOn(e, f1, Counted(c));
  }

  lemma {:induction false} RefusedState(e: Setup, n: nat)
    requires RefusesAll(e)
    ensures var l := Sequential(e, n);
            && !l.core.done && !l.core.cancelled && l.core.cursor == e.initial && l.core.spent == 0.0
            && forall i :: 0 <= i < n ==> l.fetches[i].pc == Returned(Failed(CLIENT))
  {
    if n > 0 {
      RefusedState(e, n - 1);
      RefusedFetch(e, Sequential(e, n - 1));
    }
  }

  /** In sequential mode, against a server that refuses everything, a `while (has_next) next_batch`
      loop never ends: after n calls, for any n, all have failed and has_next() is true. */
  lemma SequentialDrainNeverEnds(e: Setup, n: nat) returns (acts: seq<Action>)
    requires !Enabled(e) && RefusesAll(e)
    ensures var s := Exec(e, acts);
            && s.consumer.Idle? && |s.returned| == n && HasNext(s)
            && forall i :: 0 <= i < n ==> s.returned[i].result == Failed(CLIENT)
  {
    acts := SequentialIsSchedule(e, n);
    RefusedState(e, n);
    ProtocolInvariant(e, acts);
  }
}
