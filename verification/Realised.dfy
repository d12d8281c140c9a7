/**
 The sequential reference is realised by schedules of the machine in both modes: in sequential mode
 for any number of calls, in prefetch mode for as long as the stream is not stopped.
 */
module Realised {
  import opened Wire
  import opened Fetching
  import opened Prefetch
  import opened Projection
  import opened Refinement
  import opened Schedules
  import opened AfterCancel
  import opened Faultless

  lemma RunKeepsCancelled(e: Setup, f: Fetch, c: Core)
    ensures RunFetch(e, f, c).1.cancelled == c.cancelled
    decreases Max(0, e.policy.maxRetries - f.retry), Rank(f.pc)
  {
    if Running(f) {
      StepDescends(e, f, c);
      RunKeepsCancelled(e, Step(e, f, c).0, Step(e, f, c).1);
    }
  }

  /** Nobody cancels the sequential reference. */
  lemma {:induction false} SequentialUncancelled(e: Setup, n: nat)
    ensures !Sequential(e, n).core.cancelled
  {
    if n > 0 {
      var c := Sequential(e, n - 1).core;
      SequentialUncancelled(e, n - 1);
      RunKeepsCancelled(e, Begin(c), c);
    }
  }

  // ---- Prefetch mode ----

  /** n fetch cycles have begun and run to their ends, the newest result is not yet published, and
      all results but that one were handed out. */
  predicate Parked(e: Setup, s: System, n: nat) {
    && n > 0 && s.lane == Sequential(e, n) && s.alive == {n - 1}
    && s.consumer.Idle? && s.inFlight && !s.ready && |s.returned| == n - 1
    && s.failures == FailuresAfter(e, n - 2) && s.pendingDone == 0 && !s.timedOut
  }

  /** The newest worker, left alone, runs its fetch cycle to the end. */
  lemma WorkerFinishes(e: Setup, s: System) returns (more: seq<Action>)
    requires Enabled(e) && s.lane.fetches != [] && Newest(s) in s.alive
    ensures Apply(e, s, more) == s.(lane := Complete(e, s.lane))
    decreases Max(0, e.policy.maxRetries - Last(s.lane).retry), Rank(Last(s.lane).pc)
  {
    if Quiet(s.lane) {
      more := [];
    } else {
      var l := StepTowards(e, s.lane);
      var t := s.(lane := l);
      assert DoWork(e, s, Newest(s)) == t;
      var rest := WorkerFinishes(e, t);
      more := [Work(Newest(s))] + rest;
      assert more[1..] == rest;
    }
  }

  /** From a parked state: publish, call, collect and judge. */
  lemma Judged(e: Setup, s: System, n: nat) returns (acts: seq<Action>)
    requires Enabled(e) && Parked(e, s, n)
    ensures var r := SequentialResult(e, n - 1);
            var t := Apply(e, s, acts);
            && t.lane == s.lane && t.alive == {} && !t.inFlight
            && t.returned == s.returned && t.pendingDone == 0 && !t.timedOut
            && (if StopsAfter(e, n - 1) then t.consumer == Stopping(r, false)
                else t.consumer == Joining(r, false) && t.failures == FailuresAfter(e, n - 1))
  {
    var r := SequentialResult(e, n - 1);
    SequentialUncancelled(e, n);
    assert s.lane.fetches[n - 1].pc.result == r;
    var s1 := Do(e, s, Publish(n - 1));
    var s2 := Do(e, s1, Call);
    var s3 := Do(e, s2, Consume);
    var s4 := Do(e, s3, Consume);
    assert s4 == s.(slot := r, ready := true, alive := {}, inFlight := false,
                    consumer := Deciding(r, s.lane.core.cursor.exhausted, false));
    acts := [Publish(n - 1), Call, Consume, Consume];
    ApplyFour(e, s, s1, s2, s3, s4, acts);
    var failedBefore := n >= 2 && !SequentialResult(e, n - 2).Ok();
    Verdict(s4, r, s.lane.core.cursor.exhausted, false, failedBefore);
    ApplyAll(e, s, acts, [Consume]);
    assert Apply(e, s4, [Consume]) == Apply(e, Do(e, s4, Consume), [Consume][1..]);
    acts := acts + [Consume];
  }

  /** From the decision to restart to the next cycle begun. */
  lemma Restarted(e: Setup, s: System, r: Result, late: bool) returns (acts: seq<Action>)
    requires s.consumer == Joining(r, late) && s.alive == {}
    ensures Apply(e, s, acts)
         == s.(lane := BeginFetch(s.lane), alive := {|s.lane.fetches|}, inFlight := true,
               ready := false, consumer := Idle, returned := s.returned + [Return(r, late)])
  {
    var s1 := Do(e, s, Consume);
    var s2 := Do(e, s1, Consume);
    var s3 := Do(e, s2, Consume);
    acts := [Consume, Consume, Consume];
    assert Apply(e, s, acts) == Apply(e, s1, acts[1..]) == Apply(e, s2, acts[1..][1..])
        == Apply(e, s3, acts[1..][1..][1..]) == s3;
  }

  /** One more cycle. */
  lemma ParkedNext(e: Setup, s: System, n: nat) returns (acts: seq<Action>)
    requires Enabled(e) && Parked(e, s, n) && !StopsAfter(e, n - 1)
    ensures Parked(e, Apply(e, s, acts), n + 1)
  {
    var r := SequentialResult(e, n - 1);
    var judged := Judged(e, s, n);
    var t := Apply(e, s, judged);
    var restarted := Restarted(e, t, r, false);
    var u := Apply(e, t, restarted);
    var worked := WorkerFinishes(e, u);
    ApplyAll(e, s, judged, restarted);
    ApplyAll(e, s, judged + restarted, worked);
    acts := judged + restarted + worked;
  }

  lemma FirstParked(e: Setup) returns (acts: seq<Action>)
    requires Enabled(e) && !e.initial.exhausted
    ensures Parked(e, Apply(e, Initial(e), acts), 1)
  {
    acts := WorkerFinishes(e, Initial(e));
    assert Sequential(e, 0) == InitialLane(e);
    assert Sequential(e, 1) == Complete(e, BeginFetch(InitialLane(e)));
  }

  lemma {:induction false} ParkedAfter(e: Setup, n: nat) returns (acts: seq<Action>)
    requires Enabled(e) && n > 0 && Live(e, n - 1)
    ensures Parked(e, Apply(e, Initial(e), acts), n)
  {
    if n == 1 {
      acts := FirstParked(e);
    } else {
      var before := ParkedAfter(e, n - 1);
      var more := ParkedNext(e, Apply(e, Initial(e), before), n - 1);
      ApplyAll(e, Initial(e), before, more);
      acts := before + more;
    }
  }

  /** A schedule of a prefetching engine whose n-th cycle is begun reaches the sequential state
      after n cycles. */
  lemma PrefetchReaches(e: Setup, n: nat) returns (acts: seq<Action>)
    requires Enabled(e) && n > 0 && Live(e, n - 1)
    ensures Parked(e, Exec(e, acts), n)
  {
    var more := ParkedAfter(e, n);
    ExecApply(e, [], Initial(e), more);
    acts := [] + more;
  }

  /** In either mode some schedule reaches the sequential state after n cycles, in prefetch mode
      provided that the n-th is begun. */
  lemma Reaches(e: Setup, n: nat) returns (acts: seq<Action>)
    requires Enabled(e) ==> n > 0 && Live(e, n - 1)
    ensures Exec(e, acts).lane == Sequential(e, n) && Exec(e, acts).consumer.Idle?
    ensures !Exec(e, acts).lane.core.cancelled
  {
    SequentialUncancelled(e, n);
    if Enabled(e) {
      acts := PrefetchReaches(e, n);
    } else {
      acts := SequentialIsSchedule(e, n);
    }
  }

  /** The n-th call has just returned; the next cycle may have begun, but not moved. */
  predicate JustCalled(e: Setup, s: System, n: nat) {
    && n > 0 && s.consumer.Idle? && |s.returned| == n
    && s.returned[n - 1].result == SequentialResult(e, n - 1)
    && s.lane.core.cursor == Sequential(e, n).core.cursor
    && s.lane.core.log == Sequential(e, n).core.log
    && Sequential(e, n).fetches <= s.lane.fetches
  }

  lemma ParkedReturns(e: Setup, s: System, n: nat) returns (acts: seq<Action>)
    requires Enabled(e) && Parked(e, s, n)
    ensures JustCalled(e, Apply(e, s, acts), n)
  {
    var r := SequentialResult(e, n - 1);
    var judged := Judged(e, s, n);
    var t := Apply(e, s, judged);
    var rest: seq<Action>;
    if StopsAfter(e, n - 1) {
      rest := [Consume];
      assert Apply(e, t, rest) == Apply(e, Do(e, t, Consume), rest[1..]);
    } else {
      rest := Restarted(e, t, r, false);
    }
    ApplyAll(e, s, judged, rest);
    acts := judged + rest;
  }

  lemma InlineReturns(e: Setup, s: System, n: nat)
    requires !Enabled(e) && Inv(e, s) && s.consumer.Idle? && s.lane == Sequential(e, n) && n > 0
    ensures JustCalled(e, s, n)
  {
  }

  /** In either mode some schedule makes the n-th call return what sequential mode says. */
  lemma CallReaches(e: Setup, n: nat) returns (acts: seq<Action>)
    requires n > 0 && (Enabled(e) ==> Live(e, n - 1))
    ensures JustCalled(e, Exec(e, acts), n)
  {
    if Enabled(e) {
      var parked := PrefetchReaches(e, n);
      var more := ParkedReturns(e, Exec(e, parked), n);
      ExecApply(e, parked, Exec(e, parked), more);
      acts := parked + more;
    } else {
      acts := SequentialIsSchedule(e, n);
      ProtocolInvariant(e, acts);
      InlineReturns(e, Exec(e, acts), n);
    }
  }

  // ---- One page ----

  /** An engine, with this adapter and policy, whose server always answers with one given page. */
  function OnePage(a: Adapter, p: Policy, body: Option<Json>, c: Cursor): Setup {
    Setup(a, p, (n: nat, req: Request) => Response(200, body, ""), (n: nat) => 1.0, c)
  }

  lemma OnePageFetch(a: Adapter, p: Policy, body: Option<Json>, c: Cursor)
    requires !c.exhausted && a.parse(FRESH_ADAPTER, body).1.Some?
    ensures var l := Sequential(OnePage(a, p, body, c), 1);
            var (st, batch) := a.parse(FRESH_ADAPTER, body);
            && IsOk(Last(l)) && Last(l).from == c && l.core.cursor == p.adjust(a.next(st, c), true)
            && l.core.log == [Accepted(a.build(c), batch.value, a.cost(st))]
  {
    var e := OnePage(a, p, body, c);
    var (st, batch) := a.parse(FRESH_ADAPTER, body);
    var core := InitialCore(e);
    var f := Begin(core);
    assert Sequential(e, 0) == InitialLane(e);
    assert BeginFetch(InitialLane(e)).fetches == [f];
    assert Sequential(e, 1) == Complete(e, BeginFetch(InitialLane(e)));
    ReachesLoop(e, core);
    ServesFromLoop(e, f.(pc := Loop), core, st, batch.value);
    RunKeepsFrom(e, f, core);
  }

  lemma RunKeepsFrom(e: Setup, f: Fetch, c: Core)
    ensures RunFetch(e, f, c).0.from == f.from
    decreases Max(0, e.policy.maxRetries - f.retry), Rank(f.pc)
  {
    if Running(f) {
      StepDescends(e, f, c);
      RunKeepsFrom(e, Step(e, f, c).0, Step(e, f, c).1);
    }
  }
}
