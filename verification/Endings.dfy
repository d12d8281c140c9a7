/**
 How streams end: after cancel(), after has_next() turned false, and on chains of finite length.
 */
module Endings {
  import opened Wire
  import opened Fetching
  import opened Prefetch
  import opened Projection
  import opened Accounting
  import opened Chain
  import opened Delivery

  // ---- Cancellation ----

  /** How many of the calls begun after cancel() have returned, and how many returned OK. */
  function LateCalls(returned: seq<Return>): nat {
    if returned == [] then 0
    else LateCalls(returned[..|returned| - 1]) + if returned[|returned| - 1].late then 1 else 0
  }

  function LateOks(returned: seq<Return>): (k: nat)
    ensures k <= LateCalls(returned)
  {
    if returned == [] then 0
    else
      var r := returned[|returned| - 1];
      LateOks(returned[..|returned| - 1]) + if r.late && r.result.Ok() then 1 else 0
  }

  lemma OneMoreReturn(returned: seq<Return>, r: Return)
    ensures LateCalls(returned + [r]) == LateCalls(returned) + if r.late then 1 else 0
    ensures LateOks(returned + [r]) == LateOks(returned) + if r.late && r.result.Ok() then 1 else 0
  {
    assert (returned + [r])[..|returned|] == returned;
  }

  /** The call under way began after cancel(). */
  predicate CallIsLate(pc: Consumer) {
    match pc
    case Inline(late) => late
    case Waiting(late) => late
    case Collected(_, late) => late
    case Deciding(_, _, late) => late
    case Joining(_, late) => late
    case Arming(_, late) => late
    case Spawning(_, late) => late
    case Stopping(_, late) => late
    case _ => false
  }

  predicate NewestIsLate(s: System) { s.lane.fetches != [] && Last(s.lane).late }

  /** While calls can still be answered from a worker, at most one late call has returned, and
      then the newest worker was itself started late, so it will not return OK. */
  predicate LatePrefetch(s: System) {
    && LateOks(s.returned) <= 1
    && (CallIsLate(s.consumer) || LateCalls(s.returned) > 0 ==> s.lane.core.cancelled)
    && match s.consumer
       case Idle =>
         s.inFlight ==> LateCalls(s.returned) <= 1 && (LateCalls(s.returned) == 1 ==> NewestIsLate(s))
       case Waiting(late) =>
         LateCalls(s.returned) <= 1 && (LateCalls(s.returned) == 1 ==> late && NewestIsLate(s))
       case Collected(r, late) =>
         LateCalls(s.returned) <= 1 && (LateCalls(s.returned) == 1 ==> late && !r.Ok())
       case Deciding(r, _, late) =>
         LateCalls(s.returned) <= 1 && (LateCalls(s.returned) == 1 ==> late && !r.Ok())
       case Stopping(r, late) =>
         LateCalls(s.returned) <= 1 && (LateCalls(s.returned) == 1 ==> late && !r.Ok())
       case Joining(_, _) => LateCalls(s.returned) == 0
       case Arming(_, _) => LateCalls(s.returned) == 0
       case Spawning(_, _) => LateCalls(s.returned) == 0
       case _ => true
  }

  /** In sequential mode a call is late exactly when its fetch cycle is. */
  predicate LateInline(s: System) {
    && (forall i :: 0 <= i < |s.returned| && i < |s.lane.fetches| ==>
          (s.returned[i].late ==> s.lane.fetches[i].late))
    && (s.consumer.Inline? && s.consumer.late ==> NewestIsLate(s))
  }

  predicate LateInv(e: Setup, s: System) {
    if Enabled(e) then LatePrefetch(s) else LateInline(s)
  }

  /** Needed from the lane: a fetch cycle begun after cancel() does not return OK. */
  predicate NoLateOk(l: Lane) {
    forall i :: 0 <= i < |l.fetches| ==> l.fetches[i].late ==> !IsOk(l.fetches[i])
  }

  lemma LateCall(e: Setup, s: System)
    requires Inv(e, s) && LateInv(e, s)
    ensures LateInv(e, DoCall(e, s))
  {
    var late := s.lane.core.cancelled;
    OneMoreReturn(s.returned, Return(Failed(if late then CANCELLED else EXHAUSTED), late));
  }

  lemma LateHand(e: Setup, s: System)
    requires Inv(e, s) && LateInv(e, s) && NoLateOk(s.lane)
    requires s.consumer.Stopping? || s.consumer.Spawning? || s.consumer.Inline?
    ensures LateInv(e, DoConsume(s))
  {
    var late := CallIsLate(s.consumer);
    if s.consumer.Inline? {
    } else {
      OneMoreReturn(s.returned, Return(s.consumer.result, late));
    }
  }

  lemma LateCollect(e: Setup, s: System)
    requires Inv(e, s) && LateInv(e, s) && NoLateOk(s.lane) && s.consumer.Waiting?
    ensures LateInv(e, DoConsume(s))
  {
  }

  lemma LateJudge(e: Setup, s: System)
    requires Inv(e, s) && LateInv(e, s)
    requires !s.consumer.Stopping? && !s.consumer.Spawning? && !s.consumer.Inline?
    requires !s.consumer.Waiting?
    ensures LateInv(e, DoConsume(s))
  {
    if s.consumer.Collected? || s.consumer.Deciding? { LateVerdict(s); }
    else if s.consumer.Joining? || s.consumer.Arming? { LateRestart(s); }
  }

  lemma LateVerdict(s: System)
    requires LatePrefetch(s) && (s.consumer.Collected? || s.consumer.Deciding?)
    ensures LatePrefetch(DoConsume(s))
  {
  }

  lemma LateRestart(s: System)
    requires LatePrefetch(s) && (s.consumer.Joining? || s.consumer.Arming?)
    ensures LatePrefetch(DoConsume(s))
  {
  }

  lemma LateReplaced(e: Setup, s: System, i: nat, f: Fetch, c: Core)
    requires LateInv(e, s) && i < |s.lane.fetches|
    requires f.late == s.lane.fetches[i].late && c.cancelled == s.lane.core.cancelled
    ensures LateInv(e, s.(lane := Lane(c, s.lane.fetches[i := f])))
  {
  }

  lemma LateWork(e: Setup, s: System, i: nat)
    requires LateInv(e, s)
    ensures LateInv(e, DoWork(e, s, i))
  {
    if i < |s.lane.fetches| && Running(s.lane.fetches[i]) {
      var (f, c) := Step(e, s.lane.fetches[i], s.lane.core);
      LateReplaced(e, s, i, f, c);
    }
  }

  lemma LateOther(e: Setup, s: System, a: Action)
    requires Inv(e, s) && LateInv(e, s)
    requires !a.Call? && !a.Consume? && !a.Work?
    ensures LateInv(e, Do(e, s, a))
  {
  }

  lemma LateStep(e: Setup, s: System, a: Action)
    requires Inv(e, s) && LateInv(e, s) && NoLateOk(s.lane)
    ensures LateInv(e, Do(e, s, a))
  {
    match a
    case Call => LateCall(e, s);
    case Consume =>
      if s.consumer.Stopping? || s.consumer.Spawning? || s.consumer.Inline? { LateHand(e, s); }
      else if s.consumer.Waiting? { LateCollect(e, s); }
      else { LateJudge(e, s); }
    case Work(i) => LateWork(e, s, i);
    case _ => LateOther(e, s, a);
  }

  lemma {:induction false} LateHolds(e: Setup, acts: seq<Action>)
    ensures LateInv(e, Exec(e, acts))
  {
    if acts != [] {
      var before := acts[..|acts| - 1];
      LateHolds(e, before);
      ProtocolInvariant(e, before);
      ExecIsPlay(e, before);
      LedgerHolds(e, Ticks(e, before));
      LateStep(e, Exec(e, before), acts[|acts| - 1]);
    }
  }

  /** Among the next_batch() calls begun after cancel(), sequential mode returns no OK. */
  lemma CancelSequential(e: Setup, acts: seq<Action>, k: nat)
    requires !Enabled(e) && k < |Exec(e, acts).returned| && Exec(e, acts).returned[k].late
    ensures !Exec(e, acts).returned[k].result.Ok()
  {
    ProtocolInvariant(e, acts);
    LateHolds(e, acts);
    ExecIsPlay(e, acts);
    LedgerHolds(e, Ticks(e, acts));
  }

  /** Prefetch mode returns at most one OK to calls begun after cancel(), and once two of them
      have returned nothing is in flight. */
  lemma CancelPrefetch(e: Setup, acts: seq<Action>)
    requires Enabled(e)
    ensures var s := Exec(e, acts);
            && LateOks(s.returned) <= 1
            && (s.consumer.Idle? && LateCalls(s.returned) >= 2 ==> !HasNext(s))
  {
    ProtocolInvariant(e, acts);
    LateHolds(e, acts);
  }

  /** In either mode at most one request starts once the cancel flag is set. */
  lemma CancelRequests(e: Setup, acts: seq<Action>)
    ensures Exec(e, acts).lane.core.lateSends <= 1
  {
    ExecIsPlay(e, acts);
    AtMostOneLateRequest(e, Ticks(e, acts));
  }

  // ---- has_next() ----

  /** Between calls, prefetch mode has a next batch exactly while a result is in flight: the
      worker may set stream_done_ early without hiding the last batch. */
  lemma HasNextIsInFlight(e: Setup, acts: seq<Action>)
    requires Enabled(e) && Exec(e, acts).consumer.Idle?
    ensures HasNext(Exec(e, acts)) == Exec(e, acts).inFlight
  {
    ProtocolInvariant(e, acts);
  }

  /** Nothing is in flight and nothing can be put in flight. */
  predicate Settled(s: System) {
    && !s.inFlight && s.lane.core.done
    && (s.consumer.Idle? || s.consumer.Destroying? || s.consumer.Closing? || s.consumer.Closed?)
  }

  /** `s` continues `s0`: the calls that returned since then returned no OK. */
  predicate NoOkSince(s0: System, s: System) {
    && s0.returned <= s.returned
    && forall i :: |s0.returned| <= i < |s.returned| ==> !s.returned[i].result.Ok()
  }

  /** Since `s0`, nothing was begun and no call returned OK. */
  predicate Resting(s0: System, s: System) {
    Settled(s) && NoOkSince(s0, s) && |s.lane.fetches| == |s0.lane.fetches|
  }

  lemma RestingStep(e: Setup, s0: System, s: System, a: Action)
    requires Enabled(e) && Resting(s0, s)
    ensures Resting(s0, Do(e, s, a))
  {
  }

  /** Prefetch mode: once has_next() is false it stays false, no fetch cycle is ever begun
      again, and no call returns OK. */
  lemma HasNextStaysFalse(e: Setup, acts: seq<Action>, more: seq<Action>)
    requires Enabled(e)
    requires Exec(e, acts).consumer.Idle? && !HasNext(Exec(e, acts))
    ensures Resting(Exec(e, acts), Exec(e, acts + more)) && !HasNext(Exec(e, acts + more))
  {
    var s0 := Exec(e, acts);
    ProtocolInvariant(e, acts);
    forall s: System, a: Action | Inv(e, s) && Resting(s0, s)
      ensures Resting(s0, Do(e, s, a))
    {
      RestingStep(e, s0, s, a);
    }
    Persists(e, (s: System) => Resting(s0, s), acts, more);
  }

  /** A wait has timed out, and since `s0` nothing was begun and no call returned OK. */
  predicate OrphanedSince(s0: System, s: System) {
    s.timedOut && |s.lane.fetches| == |s0.lane.fetches| && NoOkSince(s0, s)
  }

  lemma OrphanedStep(e: Setup, s0: System, s: System, a: Action)
    requires Enabled(e) && Inv(e, s) && OrphanedSince(s0, s)
    ensures OrphanedSince(s0, Do(e, s, a))
  {
  }

  /** After a timeout no worker is ever started again and no call returns OK: what the orphaned
      worker still fetches is the one batch that can be lost. */
  lemma TimeoutIsFinal(e: Setup, acts: seq<Action>, more: seq<Action>)
    requires Enabled(e) && Exec(e, acts).timedOut
    ensures OrphanedSince(Exec(e, acts), Exec(e, acts + more))
  {
    var s0 := Exec(e, acts);
    forall s: System, a: Action | Inv(e, s) && OrphanedSince(s0, s)
      ensures OrphanedSince(s0, Do(e, s, a))
    {
      OrphanedStep(e, s0, s, a);
    }
    Persists(e, (s: System) => OrphanedSince(s0, s), acts, more);
  }

  /** Why a sequential engine has nothing more to give. */
  predicate Reason(e: Setup, c: Core) {
    c.cancelled || c.cursor.exhausted || BudgetExceeded(e.policy, c.spent)
  }

  /** The current fetch cycle will be turned away before it sends anything. */
  predicate TurnedAway(e: Setup, f: Fetch, c: Core) {
    match f.pc
    case Entry => Reason(e, c)
    case CheckCancel => c.cancelled || BudgetExceeded(e.policy, c.spent)
    case CheckBudget => BudgetExceeded(e.policy, c.spent)
    case Returned(_) => Reason(e, c)
    case _ => false
  }

  lemma TurnedAwayStep(e: Setup, f: Fetch, c: Core)
    requires Running(f) && TurnedAway(e, f, c)
    ensures var (f', c') := Step(e, f, c);
            && TurnedAway(e, f', c') && !IsOk(f') && c'.metrics.requests == c.metrics.requests
            && (c.done ==> c'.done)
  {
  }

  /** Unless cancelled, stream_done_ is set only by a cycle that found the cursor exhausted or
      the budget spent, or that exhausted the cursor. */
  predicate DoneMeansOver(e: Setup, l: Lane) {
    l.core.done && !l.core.cancelled
    ==> if l.fetches == [] then l.core.cursor.exhausted else Finished(e, Last(l), l.core)
  }

  predicate Finished(e: Setup, f: Fetch, c: Core) {
    TurnedAway(e, f, c) && (IsOk(f) ==> c.cursor.exhausted)
  }

  lemma DoneMeansOverFetch(e: Setup, f: Fetch, c: Core)
    requires Running(f) && (c.done && !c.cancelled ==> Finished(e, f, c))
    ensures var (f', c') := Step(e, f, c); c'.done && !c'.cancelled ==> Finished(e, f', c')
  {
    if c.done && !c.cancelled { TurnedAwayStep(e, f, c); }
  }

  lemma DoneMeansOverStep(e: Setup, s: System, a: Action)
    requires !Enabled(e) && Inv(e, s) && DoneMeansOver(e, s.lane)
    requires s.pendingDone > 0 ==> s.lane.core.cancelled
    ensures DoneMeansOver(e, Do(e, s, a).lane)
  {
    if a.Work? && s.lane.fetches != [] && Running(Last(s.lane)) {
      DoneMeansOverFetch(e, Last(s.lane), s.lane.core);
    }
  }

  lemma {:induction false} DoneIsExact(e: Setup, acts: seq<Action>)
    requires !Enabled(e)
    ensures DoneMeansOver(e, Exec(e, acts).lane)
    ensures Exec(e, acts).pendingDone > 0 ==> Exec(e, acts).lane.core.cancelled
  {
    if acts != [] {
      var before := acts[..|acts| - 1];
      DoneIsExact(e, before);
      ProtocolInvariant(e, before);
      DoneMeansOverStep(e, Exec(e, before), acts[|acts| - 1]);
    }
  }

  /** In sequential mode stream_done_ is set only when the cursor is exhausted, the stream was
      cancelled, or the budget is spent. */
  lemma DoneHasReason(e: Setup, acts: seq<Action>)
    requires !Enabled(e) && Exec(e, acts).lane.core.done
    ensures Reason(e, Exec(e, acts).lane.core)
  {
    DoneIsExact(e, acts);
  }

  /** Sequential mode, once has_next() was false: every later cycle is turned away. */
  predicate Over(e: Setup, s0: System, s: System) {
    var n0 := |s0.lane.fetches|;
    && (s.lane.core.done || s.lane.core.cancelled)
    && (if s.lane.fetches == [] then Reason(e, s.lane.core)
        else TurnedAway(e, Last(s.lane), s.lane.core))
    && s.lane.core.metrics.requests == s0.lane.core.metrics.requests
    && n0 <= |s.lane.fetches|
    && forall i :: n0 <= i < |s.lane.fetches| ==> !IsOk(s.lane.fetches[i])
  }

  /** Until a call begins, the lane stays quiet. */
  predicate QuietUntilCall(s0: System, s: System) {
    |s.lane.fetches| == |s0.lane.fetches| ==> Quiet(s.lane)
  }

  lemma OverReplaced(e: Setup, s0: System, s: System, f: Fetch, c: Core)
    requires Over(e, s0, s) && QuietUntilCall(s0, s)
    requires s.lane.fetches != [] && Running(Last(s.lane))
    requires TurnedAway(e, f, c) && !IsOk(f) && (c.done || c.cancelled)
    requires c.metrics.requests == s.lane.core.metrics.requests
    ensures var n := |s.lane.fetches| - 1;
            var s' := s.(lane := Lane(c, s.lane.fetches[n := f]));
            Over(e, s0, s') && QuietUntilCall(s0, s')
  {
  }

  lemma OverWork(e: Setup, s0: System, s: System, i: nat)
    requires !Enabled(e) && Inv(e, s) && Over(e, s0, s) && QuietUntilCall(s0, s)
    ensures Over(e, s0, DoWork(e, s, i)) && QuietUntilCall(s0, DoWork(e, s, i))
  {
    if s.consumer.Inline? && i == Newest(s) && Running(Last(s.lane)) {
      var (f, c) := Step(e, Last(s.lane), s.lane.core);
      TurnedAwayStep(e, Last(s.lane), s.lane.core);
      OverReplaced(e, s0, s, f, c);
    }
  }

  lemma OverCall(e: Setup, s0: System, s: System)
    requires !Enabled(e) && Inv(e, s) && Over(e, s0, s) && QuietUntilCall(s0, s)
    ensures Over(e, s0, DoCall(e, s)) && QuietUntilCall(s0, DoCall(e, s))
  {
  }

  lemma OverOther(e: Setup, s0: System, s: System, a: Action)
    requires !Enabled(e) && Inv(e, s) && Over(e, s0, s) && QuietUntilCall(s0, s)
    requires !a.Work? && !a.Call?
    ensures Over(e, s0, Do(e, s, a)) && QuietUntilCall(s0, Do(e, s, a))
  {
  }

  lemma OverStep(e: Setup, s0: System, s: System, a: Action)
    requires !Enabled(e) && Inv(e, s) && Over(e, s0, s) && QuietUntilCall(s0, s)
    ensures Over(e, s0, Do(e, s, a)) && QuietUntilCall(s0, Do(e, s, a))
  {
    match a
    case Work(i) => OverWork(e, s0, s, i);
    case Call => OverCall(e, s0, s);
    case _ => OverOther(e, s0, s, a);
  }

  lemma OverBegins(e: Setup, acts: seq<Action>)
    requires !Enabled(e) && Exec(e, acts).consumer.Idle? && !HasNext(Exec(e, acts))
    ensures Over(e, Exec(e, acts), Exec(e, acts)) && Quiet(Exec(e, acts).lane)
  {
    ProtocolInvariant(e, acts);
    DoneIsExact(e, acts);
  }

  lemma OverStays(e: Setup, s0: System, acts: seq<Action>, more: seq<Action>)
    requires !Enabled(e) && Over(e, s0, Exec(e, acts)) && QuietUntilCall(s0, Exec(e, acts))
    ensures Over(e, s0, Exec(e, acts + more)) && QuietUntilCall(s0, Exec(e, acts + more))
  {
    forall s: System, a: Action | Inv(e, s) && Over(e, s0, s) && QuietUntilCall(s0, s)
      ensures Over(e, s0, Do(e, s, a)) && QuietUntilCall(s0, Do(e, s, a))
    {
      OverStep(e, s0, s, a);
    }
    Persists(e, (s: System) => Over(e, s0, s) && QuietUntilCall(s0, s), acts, more);
  }

  /** Sequential mode: once has_next() is false it stays false, no request is issued again, and
      no call that begins after that returns OK. */
  lemma HasNextStaysFalseInline(e: Setup, acts: seq<Action>, more: seq<Action>, k: nat)
    requires !Enabled(e) && Exec(e, acts).consumer.Idle? && !HasNext(Exec(e, acts))
    ensures var s0, s := Exec(e, acts), Exec(e, acts + more);
            && !HasNext(s)
            && s.lane.core.metrics.requests == s0.lane.core.metrics.requests
            && (|s0.returned| <= k < |s.returned| ==> !s.returned[k].result.Ok())
  {
    OverBegins(e, acts);
    OverStays(e, Exec(e, acts), acts, more);
    ProtocolInvariant(e, acts);
    ProtocolInvariant(e, acts + more);
  }

  /** Both modes, for any two points of one schedule, hence for any two moments in the life of an
      engine object: once has_next() is false it stays false, and no later call returns OK. */
  lemma OnceOverAlwaysOver(e: Setup, acts: seq<Action>, later: seq<Action>)
    requires acts <= later && Exec(e, acts).consumer.Idle? && !HasNext(Exec(e, acts))
    ensures !HasNext(Exec(e, later))
    ensures |Exec(e, acts).returned| <= |Exec(e, later).returned|
    ensures forall k :: |Exec(e, acts).returned| <= k < |Exec(e, later).returned|
              ==> !Exec(e, later).returned[k].result.Ok()
  {
    var more := later[|acts|..];
    assert later == acts + more;
    ReturnsGrow(e, acts, more);
    if Enabled(e) {
      HasNextStaysFalse(e, acts, more);
    } else {
      forall k | |Exec(e, acts).returned| <= k < |Exec(e, later).returned|
        ensures !Exec(e, later).returned[k].result.Ok()
      {
        HasNextStaysFalseInline(e, acts, more, k);
      }
      HasNextStaysFalseInline(e, acts, more, 0);
    }
  }

  lemma HandReturns(s: System, result: Result, late: bool)
    ensures s.returned <= Hand(s, result, late).returned
  {
  }

  lemma ConsumeReturns(s: System)
    ensures s.returned <= DoConsume(s).returned
  {
    match s.consumer
    case Inline(late) =>
      if s.lane.fetches != [] && Quiet(s.lane) { HandReturns(s, Last(s.lane).pc.result, late); }
    case Spawning(r, late) => HandReturns(s, r, late);
    case Stopping(r, late) => HandReturns(SetDone(s), r, late);
    case _ =>
  }

  lemma CallReturns(e: Setup, s: System)
    ensures s.returned <= DoCall(e, s).returned
  {
  }

  lemma WorkReturns(e: Setup, s: System, i: nat)
    ensures DoWork(e, s, i).returned == s.returned
  {
  }

  lemma ReturnsGrowStep(e: Setup, s: System, a: Action)
    ensures s.returned <= Do(e, s, a).returned
  {
    match a
    case Call => CallReturns(e, s);
    case Consume => ConsumeReturns(s);
    case Work(i) => WorkReturns(e, s, i);
    case _ =>
  }

  /** What was returned stays returned. */
  lemma ReturnsGrow(e: Setup, acts: seq<Action>, more: seq<Action>)
    ensures Exec(e, acts).returned <= Exec(e, acts + more).returned
  {
    var before := Exec(e, acts).returned;
    forall s: System, a: Action | Inv(e, s) && before <= s.returned
      ensures before <= Do(e, s, a).returned
    {
      ReturnsGrowStep(e, s, a);
    }
    Persists(e, (s: System) => before <= s.returned, acts, more);
  }

  // ---- Two failures in a row ----

  /** No cycle is begun after two that failed in a row. */
  predicate Pairs(l: Lane) {
    forall i :: 0 <= i < |l.fetches| - 2 ==> IsOk(l.fetches[i]) || IsOk(l.fetches[i + 1])
  }

  /** The counter before the newest result is judged, and after it was judged and the next cycle is
      to begin. */
  predicate Unjudged(s: System) {
    var n := |s.lane.fetches|;
    n > 0 && s.failures == if n >= 2 && !IsOk(s.lane.fetches[n - 2]) then 1 else 0
  }

  predicate JudgedAlive(s: System) {
    var n := |s.lane.fetches|;
    && n > 0 && s.failures == (if IsOk(Last(s.lane)) then 0 else 1)
    && (n >= 2 && !IsOk(Last(s.lane)) ==> IsOk(s.lane.fetches[n - 2]))
  }

  predicate FailureInv(s: System) {
    && Pairs(s.lane)
    && match s.consumer
       case Idle => s.inFlight ==> Unjudged(s)
       case Waiting(_) => Unjudged(s)
       case Collected(_, _) => Unjudged(s)
       case Deciding(_, _, _) => Unjudged(s)
       case Joining(_, _) => JudgedAlive(s)
       case Arming(_, _) => JudgedAlive(s)
       case Spawning(_, _) => JudgedAlive(s)
       case _ => true
  }

  lemma FailureConsume(e: Setup, s: System)
    requires Enabled(e) && Inv(e, s) && FailureInv(s)
    ensures FailureInv(DoConsume(s))
  {
  }

  lemma FailureWork(e: Setup, s: System, i: nat)
    requires Enabled(e) && Inv(e, s) && FailureInv(s)
    ensures FailureInv(DoWork(e, s, i))
  {
  }

  lemma FailureOther(e: Setup, s: System, a: Action)
    requires Enabled(e) && Inv(e, s) && FailureInv(s) && !a.Consume? && !a.Work?
    ensures FailureInv(Do(e, s, a))
  {
  }

  /** Prefetch mode never begins a cycle after two that failed in a row, under any schedule. */
  lemma {:induction false} TwoFailuresStop(e: Setup, acts: seq<Action>)
    requires Enabled(e)
    ensures FailureInv(Exec(e, acts)) && Pairs(Exec(e, acts).lane)
  {
    if acts != [] {
      var s, a := Exec(e, acts[..|acts| - 1]), acts[|acts| - 1];
      TwoFailuresStop(e, acts[..|acts| - 1]);
      ProtocolInvariant(e, acts[..|acts| - 1]);
      match a
      case Consume => FailureConsume(e, s);
      case Work(i) => FailureWork(e, s, i);
      case _ => FailureOther(e, s, a);
    }
  }

  // ---- An exhausted cursor ends the stream ----

  /** An exhausted cursor is found so, or has been exhausted by the cycle that is about to finish. */
  predicate DoneFollows(l: Lane) {
    l.core.cursor.exhausted ==>
      || l.core.done
      || (l.fetches != [] && (Last(l).pc.Charge? || Last(l).pc.Finish?))
  }

  predicate OpenBefore(l: Lane) {
    l.fetches != [] && BeforeAdvance(Last(l).pc) ==> !l.core.cursor.exhausted
  }

  lemma DoneFollowsStep(e: Setup, l: Lane)
    requires KeepsKey(e.policy) && DoneFollows(l) && OpenBefore(l) && !Quiet(l)
    ensures DoneFollows(StepFetch(e, l)) && OpenBefore(StepFetch(e, l))
  {
    var f, c := Last(l), l.core;
    if f.pc.Handle? {
      HandleEffect(e, f, c);
      var shrunk := e.policy.adjust(c.cursor, false);
      assert shrunk == c.cursor.(end := shrunk.end);
    } else if !f.pc.Advance? {
      CursorUntouched(e, f, c);
    }
  }

  lemma {:induction false} DoneFollowsAlways(e: Setup, ticks: seq<Tick>)
    requires KeepsKey(e.policy)
    ensures DoneFollows(Play(e, ticks)) && OpenBefore(Play(e, ticks))
  {
    if ticks != [] {
      var l, t := Play(e, ticks[..|ticks| - 1]), ticks[|ticks| - 1];
      DoneFollowsAlways(e, ticks[..|ticks| - 1]);
      if t.StepTick? && !Quiet(l) { DoneFollowsStep(e, l); }
    }
  }

  /** In both modes, at rest with nothing in flight: has_next() is false once the cursor is
      exhausted. */
  lemma ExhaustedIsOver(e: Setup, acts: seq<Action>)
    requires KeepsKey(e.policy)
    requires var s := Exec(e, acts);
             s.consumer.Idle? && !s.inFlight && s.lane.core.cursor.exhausted
    ensures !HasNext(Exec(e, acts))
  {
    if Enabled(e) {
      HasNextIsInFlight(e, acts);
    } else {
      ProtocolInvariant(e, acts);
      ExecIsPlay(e, acts);
      DoneFollowsAlways(e, Ticks(e, acts));
    }
  }

  lemma RefusalStep(e: Setup, f: Fetch, c: Core)
    requires Running(f)
    ensures var (g, d) := Step(e, f, c);
            && (c.done ==> d.done)
            && (g.pc == Returned(Failed(EXHAUSTED)) || g.pc == Returned(Failed(BUDGET_EXHAUSTED))
                ==> d.done)
  {
  }

  /** On every run: a cycle that ends EXHAUSTED or BUDGET_EXHAUSTED leaves stream_done_ set. */
  lemma {:induction false} RefusalIsFinal(e: Setup, ticks: seq<Tick>)
    ensures var l := Play(e, ticks);
            l.fetches != []
            && (Last(l).pc == Returned(Failed(EXHAUSTED))
                || Last(l).pc == Returned(Failed(BUDGET_EXHAUSTED)))
            ==> l.core.done
  {
    if ticks != [] {
      var l, t := Play(e, ticks[..|ticks| - 1]), ticks[|ticks| - 1];
      RefusalIsFinal(e, ticks[..|ticks| - 1]);
      if t.StepTick? && !Quiet(l) { RefusalStep(e, Last(l), l.core); }
    }
  }

  // ---- A stream that is exhausted from the start ----

  /** Nothing has been sent, and nothing will be. */
  predicate NeverOpened(e: Setup, s: System) {
    && s.lane.core.cursor.exhausted && s.lane.core.done
    && s.lane.core.metrics.requests == 0 && !s.inFlight
    && (Enabled(e) ==> s.lane.fetches == []
                       && (s.consumer.Idle? || s.consumer.Destroying? || s.consumer.Closing?
                           || s.consumer.Closed?))
    && (!Enabled(e) && s.lane.fetches != [] ==>
          Last(s.lane).pc.Entry? || Last(s.lane).pc == Returned(Failed(EXHAUSTED)))
    && forall i :: 0 <= i < |s.returned| ==>
         s.returned[i].result == Failed(EXHAUSTED) || s.returned[i].result == Failed(CANCELLED)
  }

  lemma NeverOpenedWork(e: Setup, s: System, i: nat)
    requires Inv(e, s) && NeverOpened(e, s)
    ensures NeverOpened(e, DoWork(e, s, i))
  {
  }

  lemma NeverOpenedOther(e: Setup, s: System, a: Action)
    requires Inv(e, s) && NeverOpened(e, s) && !a.Work?
    ensures NeverOpened(e, Do(e, s, a))
  {
  }

  /** Both modes, every schedule: a stream whose cursor is exhausted from the start sends no request
      and says EXHAUSTED or CANCELLED; has_next() is false. */
  lemma {:induction false} ExhaustedAtStart(e: Setup, acts: seq<Action>)
    requires e.initial.exhausted
    ensures NeverOpened(e, Exec(e, acts)) && !HasNext(Exec(e, acts))
  {
    if acts != [] {
      var before, a := acts[..|acts| - 1], acts[|acts| - 1];
      ExhaustedAtStart(e, before);
      ProtocolInvariant(e, before);
      if a.Work? { NeverOpenedWork(e, Exec(e, before), a.thread); }
      else { NeverOpenedOther(e, Exec(e, before), a); }
    }
  }
}
