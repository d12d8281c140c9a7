/**
 What a call begun after cancel() returns, exactly. The C header promises CANCELLED; the engine
 says EXHAUSTED of an exhausted cursor, and a prefetching engine hands out the result in flight.
 */
module AfterCancel {
  import opened Wire
  import opened Fetching
  import opened Prefetch
  import opened Projection
  import opened Endings

  // ---- Where the promise is kept ----

  /** A fetch cycle begun after cancel() ends as the cursor it found decides. */
  predicate LateEnd(f: Fetch, c: Core) {
    f.late ==>
      && c.cancelled
      && match f.pc
         case Entry => c.cursor == f.from
         case CheckCancel => !f.from.exhausted
         case Returned(r) => r == Failed(if f.from.exhausted then EXHAUSTED else CANCELLED)
         case _ => false
  }

  lemma LateEndStep(e: Setup, f: Fetch, c: Core)
    requires Running(f) && LateEnd(f, c)
    ensures LateEnd(Step(e, f, c).0, Step(e, f, c).1)
  {
  }

  predicate LaneLateEnds(l: Lane) {
    forall i :: 0 <= i < |l.fetches| ==>
      LateEnd(l.fetches[i], l.core) && (i < |l.fetches| - 1 ==> !Running(l.fetches[i]))
  }

  lemma LateEndsReplaced(l: Lane, f: Fetch, c: Core)
    requires LaneLateEnds(l) && l.fetches != [] && LateEnd(f, c)
    requires l.core.cancelled ==> c.cancelled
    ensures LaneLateEnds(Lane(c, l.fetches[|l.fetches| - 1 := f]))
  {
  }

  lemma LateEndsTick(e: Setup, l: Lane, t: Tick)
    requires LaneLateEnds(l)
    ensures LaneLateEnds(Play1(e, l, t))
  {
    if t.StepTick? && !Quiet(l) {
      var (f, c) := Step(e, Last(l), l.core);
      LateEndStep(e, Last(l), l.core);
      LateEndsReplaced(l, f, c);
    }
  }

  lemma {:induction false} LateEndsHold(e: Setup, ticks: seq<Tick>)
    ensures LaneLateEnds(Play(e, ticks))
  {
    if ticks != [] {
      LateEndsHold(e, ticks[..|ticks| - 1]);
      LateEndsTick(e, Play(e, ticks[..|ticks| - 1]), ticks[|ticks| - 1]);
    }
  }

  /** Sequential mode: a call begun after cancel() returns CANCELLED if and only if it does not
      find the cursor exhausted; then it returns EXHAUSTED. */
  lemma SequentialAfterCancel(e: Setup, acts: seq<Action>, k: nat)
    requires !Enabled(e) && k < |Exec(e, acts).returned| && Exec(e, acts).returned[k].late
    ensures k < |Exec(e, acts).lane.fetches|
    ensures Exec(e, acts).returned[k].result
         == Failed(if Exec(e, acts).lane.fetches[k].from.exhausted then EXHAUSTED else CANCELLED)
  {
    ProtocolInvariant(e, acts);
    LateHolds(e, acts);
    ExecIsPlay(e, acts);
    LateEndsHold(e, Ticks(e, acts));
  }

  // ---- Where it is not: a result in flight ----

  /** Take some more actions. */
  function Apply(e: Setup, s: System, acts: seq<Action>): System
    decreases |acts|
  {
    if acts == [] then s else Apply(e, Do(e, s, acts[0]), acts[1..])
  }

  lemma {:induction false} ApplyOn(
    e: Setup, run: seq<Action> -> System, acts: seq<Action>, more: seq<Action>)
    requires IsRun(e, run)
    ensures run(acts + more) == Apply(e, run(acts), more)
    decreases |more|
  {
    if more == [] {
      assert acts + more == acts;
    } else {
      var longer := acts + [more[0]];
      assert run(longer) == Do(e, run(acts), more[0]);
      ApplyOn(e, run, longer, more[1..]);
      assert longer + more[1..] == acts + more;
    }
  }

  lemma ExecApply(e: Setup, acts: seq<Action>, s: System, more: seq<Action>)
    requires Exec(e, acts) == s
    ensures Exec(e, acts + more) == Apply(e, s, more)
  {
    ExecIsRun(e);
    ApplyOn(e, (acts: seq<Action>) => Exec(e, acts), acts, more);
  }

  lemma {:induction false} ApplyAll(e: Setup, s: System, a: seq<Action>, b: seq<Action>)
    ensures Apply(e, s, a + b) == Apply(e, Apply(e, s, a), b)
    decreases |a|
  {
    if a == [] {
      assert a + b == b;
    } else {
      assert (a + b)[1..] == a[1..] + b;
      ApplyAll(e, Do(e, s, a[0]), a[1..], b);
    }
  }

  /** The first worker, left alone, runs its fetch cycle to the end. */
  lemma {:induction false} WorkerRuns(e: Setup, s: System, f: Fetch, c: Core)
    returns (more: seq<Action>)
    requires Enabled(e) && s.lane == Lane(c, [f]) && 0 in s.alive
    ensures var r := RunFetch(e, f, c);
            Apply(e, s, more) == s.(lane := Lane(r.1, [r.0]))
    decreases Max(0, e.policy.maxRetries - f.retry), Rank(f.pc)
  {
    if Running(f) {
      StepDescends(e, f, c);
      var (g, d) := Step(e, f, c);
      var t := s.(lane := Lane(d, [g]));
      assert [f][0 := g] == [g];
      assert DoWork(e, s, 0) == t;
      var rest := WorkerRuns(e, t, g, d);
      more := [Work(0)] + rest;
      assert more[1..] == rest;
    } else {
      more := [];
    }
  }

  /** cancel(), between the worker's end and the consumer's call. */
  const CANCEL := [Publish(0), CancelSet, CancelDone]

  lemma Cancelled(e: Setup, s: System, f: Fetch, c: Core)
    requires Enabled(e) && s.lane == Lane(c, [f]) && s.alive == {0} && !Running(f)
    requires s.pendingDone == 0
    ensures Apply(e, s, CANCEL)
         == s.(slot := f.pc.result, ready := true, alive := {},
               lane := Lane(c.(cancelled := true, done := true), [f]))
  {
    var s1 := Do(e, s, Publish(0));
    assert s1 == s.(slot := f.pc.result, ready := true, alive := {});
    var s2 := Do(e, s1, CancelSet);
    var s3 := Do(e, s2, CancelDone);
    assert Apply(e, s, CANCEL) == Apply(e, s1, CANCEL[1..]) == Apply(e, s2, CANCEL[2..])
        == Apply(e, s3, CANCEL[3..]) == s3;
  }

  /** A call that finds a result ready returns it, whatever it is, if the stream is cancelled. */
  lemma OneCall(e: Setup, s: System, r: Result) returns (acts: seq<Action>)
    requires Enabled(e) && s.consumer.Idle? && s.inFlight && s.ready && s.slot == r
    requires (r.Ok() || s.lane.core.cancelled) && Joinable(s)
    ensures var t := Apply(e, s, acts);
            && t.returned == s.returned + [Return(r, s.lane.core.cancelled)]
            && t.consumer.Idle? && t.lane.core.cancelled == s.lane.core.cancelled
            && (!r.Ok() ==> !t.inFlight)
  {
    var late := s.lane.core.cancelled;
    var s1 := Do(e, s, Call);
    var s2 := Do(e, s1, Consume);
    var s3 := Do(e, s2, Consume);
    var s4 := Do(e, s3, Consume);
    assert s1.consumer == Waiting(late) && s2.consumer == Collected(r, late);
    assert s3.consumer == Deciding(r, s.lane.core.cursor.exhausted, late);
    acts := [Call, Consume, Consume, Consume];
    ApplyFour(e, s, s1, s2, s3, s4, acts);
    var rest := Ending(e, s4, r, late);
    ApplyAll(e, s, acts, rest);
    acts := acts + rest;
  }

  lemma ApplyFour(
    e: Setup, s: System, s1: System, s2: System, s3: System, s4: System, acts: seq<Action>)
    requires |acts| == 4
    requires s1 == Do(e, s, acts[0]) && s2 == Do(e, s1, acts[1])
    requires s3 == Do(e, s2, acts[2]) && s4 == Do(e, s3, acts[3])
    ensures Apply(e, s, acts) == s4
  {
    assert Apply(e, s, acts) == Apply(e, s1, acts[1..]) == Apply(e, s2, acts[1..][1..])
        == Apply(e, s3, acts[1..][1..][1..]) == Apply(e, s4, acts[1..][1..][1..][1..]);
  }

  lemma Ending(e: Setup, s: System, r: Result, late: bool) returns (acts: seq<Action>)
    requires s.consumer == Stopping(r, late) || (s.consumer == Joining(r, late) && Joinable(s))
    ensures var t := Apply(e, s, acts);
            && t.returned == s.returned + [Return(r, late)] && t.consumer.Idle?
            && t.lane.core.cancelled == s.lane.core.cancelled
            && (s.consumer.Stopping? ==> t.inFlight == s.inFlight)
  {
    if s.consumer.Stopping? {
      acts := [Consume];
      assert Apply(e, s, acts) == Apply(e, Do(e, s, Consume), acts[1..]);
    } else {
      var s1 := Do(e, s, Consume);
      var s2 := Do(e, s1, Consume);
      var s3 := Do(e, s2, Consume);
      acts := [Consume, Consume, Consume];
      assert Apply(e, s, acts) == Apply(e, s1, acts[1..]) == Apply(e, s2, acts[1..][1..])
          == Apply(e, s3, acts[1..][1..][1..]) == s3;
    }
  }

  /** Every prefetching engine whose first fetch succeeds has a run in which the first call begun
      after cancel() returns OK. */
  lemma OkAfterCancel(e: Setup) returns (acts: seq<Action>)
    requires Enabled(e) && !e.initial.exhausted && SequentialResult(e, 0).Ok()
    ensures Exec(e, acts).returned == [Return(SequentialResult(e, 0), true)]
  {
    FirstResult(e);
    assert Initial(e).lane.fetches == [Begin(InitialCore(e))];
    acts := RunThenCancel(e, Initial(e), Begin(InitialCore(e)), InitialCore(e));
    ExecApply(e, [], Initial(e), acts);
    assert [] + acts == acts;
  }

  lemma RunThenCancel(e: Setup, s: System, f: Fetch, c: Core) returns (acts: seq<Action>)
    requires Enabled(e) && s.lane.core == c && s.lane.fetches == [f] && s.alive == {0}
    requires s.consumer.Idle? && s.inFlight && s.pendingDone == 0
    requires RunFetch(e, f, c).0.pc.result.Ok()
    ensures Apply(e, s, acts).returned
         == s.returned + [Return(RunFetch(e, f, c).0.pc.result, true)]
  {
    var r := RunFetch(e, f, c);
    var work := WorkerRuns(e, s, f, c);
    Cancelled(e, s.(lane := Lane(r.1, [r.0])), r.0, r.1);
    ApplyAll(e, s, work, CANCEL);
    var tail := OneCall(e, Apply(e, s, work + CANCEL), r.0.pc.result);
    ApplyAll(e, s, work + CANCEL, tail);
    acts := work + CANCEL + tail;
  }

  lemma FirstResult(e: Setup)
    ensures SequentialResult(e, 0) == RunFetch(e, Begin(InitialCore(e)), InitialCore(e)).0.pc.result
  {
    assert Sequential(e, 0) == InitialLane(e);
    var l := BeginFetch(InitialLane(e));
    assert l.fetches == [Begin(InitialCore(e))];
    assert Sequential(e, 1) == Complete(e, l);
  }

  // ---- The exact condition: prefetch mode ----

  /** From the n-th on, the calls said CANCELLED. */
  predicate CancelledFrom(n: nat, returned: seq<Return>) {
    forall k :: n <= k < |returned| ==> returned[k].result == Failed(CANCELLED)
  }

  /** In this continuation, every call that returns says CANCELLED. */
  predicate AllSayCancelled(e: Setup, acts: seq<Action>, more: seq<Action>) {
    CancelledFrom(|Exec(e, acts).returned|, Exec(e, acts + more).returned)
  }

  /** Nothing is in flight, or what is says CANCELLED itself. */
  predicate NothingToHandOut(s: System) {
    !s.inFlight || (s.ready && s.slot == Failed(CANCELLED))
  }

  /** The calls from the n-th on said CANCELLED, and the one under way is on its way to. */
  predicate Promised(n: nat, s: System) {
    && s.lane.core.cancelled && CancelledFrom(n, s.returned)
    && match s.consumer
       case Idle => NothingToHandOut(s)
       case Waiting(_) => s.inFlight && NothingToHandOut(s)
       case Collected(r, _) => r == Failed(CANCELLED)
       case Deciding(r, _, _) => r == Failed(CANCELLED)
       case Stopping(r, _) => r == Failed(CANCELLED)
       case Destroying => true
       case Closing => true
       case Closed => true
       case _ => false
  }

  lemma PromisedCall(e: Setup, n: nat, s: System)
    requires Enabled(e) && Inv(e, s) && Promised(n, s)
    ensures Promised(n, DoCall(e, s))
  {
  }

  lemma PromisedConsume(e: Setup, n: nat, s: System)
    requires Enabled(e) && Inv(e, s) && Promised(n, s)
    ensures Promised(n, DoConsume(s))
  {
  }

  lemma PromisedOther(e: Setup, n: nat, s: System, a: Action)
    requires Enabled(e) && Inv(e, s) && Promised(n, s)
    requires !a.Call? && !a.Consume?
    ensures Promised(n, Do(e, s, a))
  {
  }

  lemma PromisedStep(e: Setup, n: nat, s: System, a: Action)
    requires Enabled(e) && Inv(e, s) && Promised(n, s)
    ensures Promised(n, Do(e, s, a))
  {
    match a
    case Call => PromisedCall(e, n, s);
    case Consume => PromisedConsume(e, n, s);
    case _ => PromisedOther(e, n, s, a);
  }

  lemma PromiseKept(e: Setup, acts: seq<Action>, more: seq<Action>)
    requires Enabled(e) && Exec(e, acts).consumer.Idle? && Exec(e, acts).lane.core.cancelled
    requires NothingToHandOut(Exec(e, acts))
    ensures AllSayCancelled(e, acts, more)
  {
    var n := |Exec(e, acts).returned|;
    forall s: System, a: Action | Inv(e, s) && Promised(n, s)
      ensures Promised(n, Do(e, s, a))
    {
      PromisedStep(e, n, s, a);
    }
    Persists(e, (s: System) => Promised(n, s), acts, more);
  }

  /** A call whose wait times out returns NETWORK and leaves the stream cancelled. */
  lemma TimedOutCall(e: Setup, s: System) returns (acts: seq<Action>)
    requires Enabled(e) && s.consumer.Idle? && s.inFlight && !s.ready
    ensures var t := Apply(e, s, acts);
            && t.returned == s.returned + [Return(Failed(NETWORK), s.lane.core.cancelled)]
            && t.consumer.Idle? && t.lane.core.cancelled && !t.inFlight
  {
    var r, late := Failed(NETWORK), s.lane.core.cancelled;
    var s1 := Do(e, s, Call);
    var s2 := Do(e, s1, Timeout);
    var s3 := Do(e, s2, Consume);
    var s4 := Do(e, s3, Consume);
    assert s1.consumer == Waiting(late) && s2.consumer == Collected(r, late);
    assert s3.consumer == Deciding(r, s.lane.core.cursor.exhausted, late);
    acts := [Call, Timeout, Consume, Consume];
    ApplyFour(e, s, s1, s2, s3, s4, acts);
    var rest := Ending(e, s4, r, late);
    ApplyAll(e, s, acts, rest);
    acts := acts + rest;
  }

  /** From an idle cancelled state some call returns, and it says something else than CANCELLED
      unless there is nothing to hand out. */
  lemma SomeReturn(e: Setup, s: System) returns (acts: seq<Action>)
    requires Enabled(e) && Inv(e, s) && s.consumer.Idle? && s.lane.core.cancelled
    ensures var t := Apply(e, s, acts);
            && |t.returned| == |s.returned| + 1
            && (!NothingToHandOut(s) ==> t.returned[|s.returned|].result != Failed(CANCELLED))
  {
    if !s.inFlight {
      acts := [Call];
      assert Apply(e, s, acts) == Apply(e, Do(e, s, Call), acts[1..]) == Do(e, s, Call);
    } else if s.ready {
      acts := OneCall(e, s, s.slot);
    } else {
      acts := TimedOutCall(e, s);
    }
  }

  /** Prefetch mode, from every reachable state between calls with the cancel flag set: whatever
      happens next, every call that returns says CANCELLED, if and only if nothing is in flight or
      the result in flight is ready and says CANCELLED itself. */
  lemma PrefetchAfterCancelIff(e: Setup, acts: seq<Action>)
    requires Enabled(e) && Exec(e, acts).consumer.Idle? && Exec(e, acts).lane.core.cancelled
    ensures (forall more :: AllSayCancelled(e, acts, more)) <==> NothingToHandOut(Exec(e, acts))
  {
    var s := Exec(e, acts);
    if NothingToHandOut(s) {
      forall more
        ensures AllSayCancelled(e, acts, more)
      {
        PromiseKept(e, acts, more);
      }
    } else {
      ProtocolInvariant(e, acts);
      var more := SomeReturn(e, s);
      ExecApply(e, acts, s, more);
      assert !AllSayCancelled(e, acts, more);
    }
  }

  // ---- The exact condition: sequential mode ----

  /** The same between calls, and inside one, which leaves the cursor alone. */
  predicate PromisedInline(n: nat, s: System) {
    && s.lane.core.cancelled && CancelledFrom(n, s.returned)
    && !s.lane.core.cursor.exhausted
    && (s.consumer.Inline? ==>
          && s.lane.fetches != [] && Last(s.lane).late && !Last(s.lane).from.exhausted
          && LateEnd(Last(s.lane), s.lane.core))
  }

  lemma PromisedInlineWork(e: Setup, n: nat, s: System, i: nat)
    requires !Enabled(e) && Inv(e, s) && PromisedInline(n, s)
    ensures PromisedInline(n, DoWork(e, s, i))
  {
    if s.consumer.Inline? && i == Newest(s) && Running(Last(s.lane)) {
      LateEndStep(e, Last(s.lane), s.lane.core);
    }
  }

  lemma PromisedInlineOther(e: Setup, n: nat, s: System, a: Action)
    requires !Enabled(e) && Inv(e, s) && PromisedInline(n, s) && !a.Work?
    ensures PromisedInline(n, Do(e, s, a))
  {
  }

  lemma InlinePromiseKept(e: Setup, acts: seq<Action>, more: seq<Action>)
    requires !Enabled(e) && Exec(e, acts).consumer.Idle? && Exec(e, acts).lane.core.cancelled
    requires !Exec(e, acts).lane.core.cursor.exhausted
    ensures AllSayCancelled(e, acts, more)
  {
    var n := |Exec(e, acts).returned|;
    forall s: System, a: Action | Inv(e, s) && PromisedInline(n, s)
      ensures PromisedInline(n, Do(e, s, a))
    {
      if a.Work? { PromisedInlineWork(e, n, s, a.thread); } else { PromisedInlineOther(e, n, s, a); }
    }
    Persists(e, (s: System) => PromisedInline(n, s), acts, more);
  }

  /** From an idle cancelled state some call returns: EXHAUSTED or CANCELLED, as the cursor says. */
  lemma SomeInlineReturn(e: Setup, s: System) returns (acts: seq<Action>)
    requires !Enabled(e) && s.consumer.Idle? && s.lane.core.cancelled
    ensures var t := Apply(e, s, acts);
            var code := if s.lane.core.cursor.exhausted then EXHAUSTED else CANCELLED;
            t.returned == s.returned + [Return(Failed(code), true)]
  {
    var n := |s.lane.fetches|;
    var f := Begin(s.lane.core);
    acts := [Call, Work(n), Work(n), Consume];
    var s1 := Do(e, s, Call);
    assert Last(s1.lane) == f && Newest(s1) == n;
    var s2 := Do(e, s1, Work(n));
    assert Last(s2.lane) == Step(e, f, s.lane.core).0;
    var s3 := Do(e, s2, Work(n));
    var s4 := Do(e, s3, Consume);
    ApplyFour(e, s, s1, s2, s3, s4, acts);
  }

  lemma NotAllCancelled(before: seq<Return>, after: seq<Return>, r: Return)
    requires after == before + [r] && r.result != Failed(CANCELLED)
    ensures !CancelledFrom(|before|, after)
  {
    assert after[|before|] == r;
  }

  lemma SaysOtherwise(e: Setup, acts: seq<Action>, s: System, more: seq<Action>, r: Return)
    requires Exec(e, acts) == s && Apply(e, s, more).returned == s.returned + [r]
    requires r.result != Failed(CANCELLED)
    ensures !AllSayCancelled(e, acts, more)
  {
    ExecApply(e, acts, s, more);
    NotAllCancelled(s.returned, Apply(e, s, more).returned, r);
  }

  /** Sequential mode, likewise: if and only if the cursor is not exhausted. */
  lemma SequentialAfterCancelIff(e: Setup, acts: seq<Action>)
    requires !Enabled(e) && Exec(e, acts).consumer.Idle? && Exec(e, acts).lane.core.cancelled
    ensures (forall more :: AllSayCancelled(e, acts, more))
       <==> !Exec(e, acts).lane.core.cursor.exhausted
  {
    if !Exec(e, acts).lane.core.cursor.exhausted {
      forall more
        ensures AllSayCancelled(e, acts, more)
      {
        InlinePromiseKept(e, acts, more);
      }
    } else {
      var more := SomeInlineReturn(e, Exec(e, acts));
      SaysOtherwise(e, acts, Exec(e, acts), more, Return(Failed(EXHAUSTED), true));
    }
  }

  /** The condition of the engine's mode. */
  predicate WillSayCancelled(e: Setup, s: System) {
    if Enabled(e) then NothingToHandOut(s) else !s.lane.core.cursor.exhausted
  }

  /** Some call returns from here, and the engine's condition decides whether it must say CANCELLED. */
  lemma ReturnAfterCancel(e: Setup, acts: seq<Action>) returns (more: seq<Action>)
    requires Exec(e, acts).consumer.Idle? && Exec(e, acts).lane.core.cancelled
    ensures var s, t := Exec(e, acts), Exec(e, acts + more);
            && |t.returned| == |s.returned| + 1
            && (!WillSayCancelled(e, s) ==> t.returned[|s.returned|].result != Failed(CANCELLED))
  {
    ProtocolInvariant(e, acts);
    more := AnyReturn(e, Exec(e, acts));
    ExecApply(e, acts, Exec(e, acts), more);
  }

  lemma AnyReturn(e: Setup, s: System) returns (more: seq<Action>)
    requires Inv(e, s) && s.consumer.Idle? && s.lane.core.cancelled
    ensures var t := Apply(e, s, more);
            && |t.returned| == |s.returned| + 1
            && (!WillSayCancelled(e, s) ==> t.returned[|s.returned|].result != Failed(CANCELLED))
  {
    if Enabled(e) { more := SomeReturn(e, s); } else { more := SomeInlineReturn(e, s); }
  }
}
