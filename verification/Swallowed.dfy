/**
 A read that shows nothing and meets an error has used that error up. Exactly when the loss goes
 unnoticed, told from the state of the engine before the read.
 */
module Swallowed {
  import opened Wire
  import opened Fetching
  import opened Prefetch
  import opened Interference
  import opened Schedules
  import opened AfterCancel
  import opened CApi
  import opened Reading
  import opened HandleEndings
  import Faultless
  import Projection
  import Accounting
  import Drain

  // ---- What there is to notice ----

  /** If the engine's n-th result is an error, a caller who has lost it sees the same, in whatever
      later calls it makes, as one who has not. */
  ghost predicate Unnoticed(dump: Json -> string, returned: seq<Return>, n: nat) {
    n < |returned| && !returned[n].result.Ok() ==>
      forall feed: Feed, later: seq<Call> ::
        Feeds(returned, feed) && Within(dump, feed, later, n, |returned|)
        && Within(dump, feed, later, n + 1, |returned|)
        ==> SameAnswers(dump, feed, later, n)
  }

  /** From the n-th result on, with nothing unread, the calls use at most the first m results. */
  predicate Within(dump: Json -> string, feed: Feed, later: seq<Call>, n: nat, m: nat) {
    Run(dump, feed, Session(Reader(None, n), [], []), later).reader.taken <= m
  }

  predicate SameAnswers(dump: Json -> string, feed: Feed, later: seq<Call>, n: nat) {
    var u := Run(dump, feed, Session(Reader(None, n), [], []), later);
    var v := Run(dump, feed, Session(Reader(None, n + 1), [], []), later);
    u.codes == v.codes && u.events == v.events
  }

  /** The same engine up to now, and whatever the server answers from now on. */
  ghost predicate Continues(e: Setup, acts: seq<Action>, e': Setup) {
    e' == e.(transport := e'.transport) && Exec(e', acts) == Exec(e, acts)
  }

  // ---- Errors that repeat, and errors that do not ----

  lemma RepeatedIsUnnoticed(dump: Json -> string, returned: seq<Return>, n: nat)
    requires n < |returned| ==> forall k :: n <= k < |returned| ==>
               returned[k].result.error == returned[n].result.error
    ensures Unnoticed(dump, returned, n)
  {
    if n < |returned| && !returned[n].result.Ok() {
      forall feed: Feed, later: seq<Call> |
        Feeds(returned, feed) && Within(dump, feed, later, n, |returned|)
        && Within(dump, feed, later, n + 1, |returned|)
        ensures SameAnswers(dump, feed, later, n)
      {
        RepeatedRun(dump, returned, n, feed, later);
      }
    }
  }

  lemma RepeatedRun(
    dump: Json -> string, returned: seq<Return>, n: nat, feed: Feed, later: seq<Call>)
    requires n < |returned| && !returned[n].result.Ok() && Feeds(returned, feed)
    requires forall k :: n <= k < |returned| ==> returned[k].result.error == returned[n].result.error
    requires Within(dump, feed, later, n, |returned|) && Within(dump, feed, later, n + 1, |returned|)
    ensures SameAnswers(dump, feed, later, n)
  {
    var error, m := returned[n].result.error, |returned|;
    var only := (c: Code) => c == error;
    forall i: nat | n <= i < m
      ensures feed(i).result.error == error
    {
      assert feed(i).result == returned[i].result;
    }
    var s, t := Session(Reader(None, n), [], []), Session(Reader(None, n + 1), [], []);
    BarrenRun(dump, feed, s, later, n, m, only, error);
    BarrenRun(dump, feed, t, later, n, m, only, error);
    var u, v := Run(dump, feed, s, later), Run(dump, feed, t, later);
    forall i | 0 <= i < |later|
      ensures u.codes[i] == v.codes[i]
    {
      assert Answered(u.codes[i], later[i], only) && Answered(v.codes[i], later[i], only);
    }
  }

  lemma DifferentIsNoticed(dump: Json -> string, returned: seq<Return>, n: nat)
    requires n + 1 < |returned| && !returned[n].result.Ok()
    requires returned[n].result.error != returned[n + 1].result.error
    ensures !Unnoticed(dump, returned, n)
  {
    var feed, later := FeedOf(returned), [TimestampV2];
    var s, t := Session(Reader(None, n), [], []), Session(Reader(None, n + 1), [], []);
    OnePeek(dump, feed, s);
    OnePeek(dump, feed, t);
    assert Feeds(returned, feed);
    assert Within(dump, feed, later, n, |returned|) && Within(dump, feed, later, n + 1, |returned|);
    CodesAreDistinct(returned[n].result.error, returned[n + 1].result.error);
    assert Run(dump, feed, s, later).codes[0] != Run(dump, feed, t, later).codes[0];
    assert !SameAnswers(dump, feed, later, n);
  }

  // ---- Prefetch mode ----

  /** A batch is ready to be handed out, or CANCELLED is all there will be. */
  predicate PrefetchSettled(s: System) {
    (s.inFlight && s.ready && s.slot.Ok()) || (s.lane.core.cancelled && NothingToHandOut(s))
  }

  /** The n-th call returns the batch that is ready. */
  predicate BatchComing(n: nat, s: System) {
    if |s.returned| > n then s.returned[n].result.Ok()
    else
      match s.consumer
      case Idle => s.inFlight && s.ready && s.slot.Ok()
      case Waiting(_) => s.inFlight && s.ready && s.slot.Ok()
      case Collected(r, _) => r.Ok()
      case Deciding(r, _, _) => r.Ok()
      case Joining(r, _) => r.Ok()
      case Arming(r, _) => r.Ok()
      case Spawning(r, _) => r.Ok()
      case Stopping(r, _) => r.Ok()
      case _ => true
  }

  lemma BatchComingConsume(e: Setup, n: nat, s: System)
    requires Enabled(e) && Inv(e, s) && BatchComing(n, s) && |s.returned| >= n
    ensures BatchComing(n, DoConsume(s)) && |DoConsume(s).returned| >= n
  {
  }

  lemma BatchComingOther(e: Setup, n: nat, s: System, a: Action)
    requires Enabled(e) && Inv(e, s) && BatchComing(n, s) && |s.returned| >= n && !a.Consume?
    ensures BatchComing(n, Do(e, s, a)) && |Do(e, s, a).returned| >= n
  {
  }

  lemma BatchComes(e: Setup, acts: seq<Action>, more: seq<Action>)
    requires Enabled(e) && Exec(e, acts).consumer.Idle?
    requires var s := Exec(e, acts); s.inFlight && s.ready && s.slot.Ok()
    ensures BatchComing(|Exec(e, acts).returned|, Exec(e, acts + more))
  {
    var n := |Exec(e, acts).returned|;
    forall s: System, a: Action | Inv(e, s) && BatchComing(n, s) && |s.returned| >= n
      ensures BatchComing(n, Do(e, s, a)) && |Do(e, s, a).returned| >= n
    {
      if a.Consume? { BatchComingConsume(e, n, s); } else { BatchComingOther(e, n, s, a); }
    }
    Persists(e, (s: System) => BatchComing(n, s) && |s.returned| >= n, acts, more);
  }

  /** Once stopped and cancelled, a call says CANCELLED. */
  lemma ThenCancelled(e: Setup, s: System, acts: seq<Action>)
    requires Enabled(e)
    requires var t := Apply(e, s, acts); t.consumer.Idle? && !t.inFlight && t.lane.core.cancelled
    ensures Apply(e, s, acts + [Call]).returned
         == Apply(e, s, acts).returned + [Return(Failed(CANCELLED), true)]
  {
    var t := Apply(e, s, acts);
    ApplyAll(e, s, acts, [Call]);
    assert Apply(e, t, [Call]) == Apply(e, Do(e, t, Call), [Call][1..]);
  }

  /** Only a cancelled stream says CANCELLED. */
  predicate CancelledIsTrue(s: System) {
    forall i :: 0 <= i < |s.lane.fetches| ==>
      (s.lane.fetches[i].pc == Returned(Failed(CANCELLED)) ==> s.lane.core.cancelled)
  }

  lemma CancelledStep(e: Setup, f: Fetch, c: Core)
    requires Running(f)
    ensures var (g, d) := Step(e, f, c);
            g.pc == Returned(Failed(CANCELLED)) ==> d.cancelled
  {
  }

  lemma CancelledWork(e: Setup, s: System, i: nat)
    requires Inv(e, s) && CancelledIsTrue(s)
    ensures CancelledIsTrue(DoWork(e, s, i))
  {
    if i < |s.lane.fetches| && Running(s.lane.fetches[i]) {
      CancelledStep(e, s.lane.fetches[i], s.lane.core);
    }
  }

  lemma CancelledBegin(e: Setup, s: System)
    requires CancelledIsTrue(s)
    ensures CancelledIsTrue(DoCall(e, s)) && CancelledIsTrue(DoConsume(s))
  {
  }

  lemma CancelledOther(e: Setup, s: System, a: Action)
    requires CancelledIsTrue(s) && !a.Work?
    ensures CancelledIsTrue(Do(e, s, a))
  {
    match a
    case Call => CancelledBegin(e, s);
    case Consume => CancelledBegin(e, s);
    case _ =>
  }

  lemma CancelledHolds(e: Setup, acts: seq<Action>)
    ensures CancelledIsTrue(Exec(e, acts))
  {
    forall s: System, a: Action | Inv(e, s) && CancelledIsTrue(s)
      ensures CancelledIsTrue(Do(e, s, a))
    {
      if a.Work? { CancelledWork(e, s, a.thread); } else { CancelledOther(e, s, a); }
    }
    Persists(e, (s: System) => CancelledIsTrue(s), [], acts);
    assert [] + acts == acts;
  }

  /** Two calls that return different errors. */
  predicate TwoDiffer(n: nat, s: System) {
    && |s.returned| == n + 2 && !s.returned[n].result.Ok()
    && s.returned[n].result.error != s.returned[n + 1].result.error
  }

  lemma StoppedDiffers(e: Setup, s: System) returns (acts: seq<Action>)
    requires Enabled(e) && s.consumer.Idle? && !s.inFlight && !s.lane.core.cancelled
    ensures TwoDiffer(|s.returned|, Apply(e, s, acts))
  {
    var s1 := Do(e, s, Call);
    var s2 := Do(e, s1, CancelSet);
    acts := [Call, CancelSet];
    assert Apply(e, s, acts) == Apply(e, s1, acts[1..]) == Apply(e, s2, acts[1..][1..]) == s2;
    ThenCancelled(e, s, acts);
    acts := acts + [Call];
  }

  lemma UnreadyDiffers(e: Setup, s: System) returns (acts: seq<Action>)
    requires Enabled(e) && s.consumer.Idle? && s.inFlight && !s.ready
    ensures TwoDiffer(|s.returned|, Apply(e, s, acts))
  {
    acts := TimedOutCall(e, s);
    ThenCancelled(e, s, acts);
    acts := acts + [Call];
  }

  lemma ErrorReadyDiffers(e: Setup, s: System) returns (acts: seq<Action>)
    requires Enabled(e) && s.consumer.Idle? && s.inFlight && s.ready && Joinable(s)
    requires !s.slot.Ok() && s.slot.error != CANCELLED
    ensures TwoDiffer(|s.returned|, Apply(e, s, acts))
  {
    var s1 := Do(e, s, CancelSet);
    assert Apply(e, s, [CancelSet]) == Apply(e, s1, [CancelSet][1..]) == s1;
    var call := OneCall(e, s1, s.slot);
    ApplyAll(e, s, [CancelSet], call);
    acts := [CancelSet] + call;
    ThenCancelled(e, s, acts);
    acts := acts + [Call];
  }

  lemma PrefetchDiffers(e: Setup, s: System) returns (acts: seq<Action>)
    requires Enabled(e) && Inv(e, s) && s.consumer.Idle? && !PrefetchSettled(s) && CancelledIsTrue(s)
    requires s.inFlight && s.ready ==> (s.slot.error == CANCELLED ==> s.slot == Failed(CANCELLED))
    ensures TwoDiffer(|s.returned|, Apply(e, s, acts))
  {
    if !s.inFlight {
      acts := StoppedDiffers(e, s);
    } else if !s.ready {
      acts := UnreadyDiffers(e, s);
    } else {
      acts := ErrorReadyDiffers(e, s);
    }
  }

  lemma SlotShape(e: Setup, acts: seq<Action>)
    requires Enabled(e) && Exec(e, acts).consumer.Idle?
    ensures var s := Exec(e, acts);
            s.inFlight && s.ready && s.slot.error == CANCELLED ==> s.slot == Failed(CANCELLED)
  {
    ProtocolInvariant(e, acts);
    Projection.ExecIsPlay(e, acts);
    Accounting.EveryBatchYielded(e, Projection.Ticks(e, acts));
  }

  lemma PrefetchSettledHolds(
    dump: Json -> string, e: Setup, acts: seq<Action>, more: seq<Action>)
    requires Enabled(e) && Exec(e, acts).consumer.Idle? && PrefetchSettled(Exec(e, acts))
    ensures Unnoticed(dump, Exec(e, acts + more).returned, |Exec(e, acts).returned|)
  {
    var s := Exec(e, acts);
    var n, returned := |s.returned|, Exec(e, acts + more).returned;
    if s.inFlight && s.ready && s.slot.Ok() {
      BatchComes(e, acts, more);
    } else {
      PromiseKept(e, acts, more);
      RepeatedIsUnnoticed(dump, returned, n);
    }
  }

  lemma Differing(dump: Json -> string, e: Setup, acts: seq<Action>, more: seq<Action>)
    requires TwoDiffer(|Exec(e, acts).returned|, Apply(e, Exec(e, acts), more))
    ensures !Unnoticed(dump, Exec(e, acts + more).returned, |Exec(e, acts).returned|)
  {
    ExecApply(e, acts, Exec(e, acts), more);
    DifferentIsNoticed(dump, Exec(e, acts + more).returned, |Exec(e, acts).returned|);
  }

  // ---- Sequential mode ----

  /** From the n-th on, the calls said EXHAUSTED, and the one under way will. */
  predicate ExhaustedFor(n: nat, s: System) {
    && s.lane.core.cursor.exhausted
    && (forall k :: n <= k < |s.returned| ==> s.returned[k].result == Failed(EXHAUSTED))
    && (s.consumer.Inline? ==>
          s.lane.fetches != []
          && (Last(s.lane).pc.Entry? || Last(s.lane).pc == Returned(Failed(EXHAUSTED))))
  }

  lemma ExhaustedWork(e: Setup, n: nat, s: System, i: nat)
    requires !Enabled(e) && Inv(e, s) && ExhaustedFor(n, s)
    ensures ExhaustedFor(n, DoWork(e, s, i))
  {
  }

  lemma ExhaustedOther(e: Setup, n: nat, s: System, a: Action)
    requires !Enabled(e) && Inv(e, s) && ExhaustedFor(n, s) && !a.Work?
    ensures ExhaustedFor(n, Do(e, s, a))
  {
  }

  lemma ExhaustedForEver(e: Setup, acts: seq<Action>, more: seq<Action>)
    requires !Enabled(e) && Exec(e, acts).consumer.Idle? && Exec(e, acts).lane.core.cursor.exhausted
    ensures ExhaustedFor(|Exec(e, acts).returned|, Exec(e, acts + more))
  {
    var n := |Exec(e, acts).returned|;
    forall s: System, a: Action | Inv(e, s) && ExhaustedFor(n, s)
      ensures ExhaustedFor(n, Do(e, s, a))
    {
      if a.Work? { ExhaustedWork(e, n, s, a.thread); } else { ExhaustedOther(e, n, s, a); }
    }
    Persists(e, (s: System) => ExhaustedFor(n, s), acts, more);
  }

  lemma InlineSettledHolds(
    dump: Json -> string, e: Setup, acts: seq<Action>, more: seq<Action>)
    requires !Enabled(e) && Exec(e, acts).consumer.Idle?
    requires var c := Exec(e, acts).lane.core; c.cursor.exhausted || c.cancelled
    ensures Unnoticed(dump, Exec(e, acts + more).returned, |Exec(e, acts).returned|)
  {
    if Exec(e, acts).lane.core.cursor.exhausted {
      ExhaustedForEver(e, acts, more);
    } else {
      InlinePromiseKept(e, acts, more);
    }
    RepeatedIsUnnoticed(dump, Exec(e, acts + more).returned, |Exec(e, acts).returned|);
  }

  /** The same engine on a server that refuses every request from the k-th on. */
  function RefusingFrom(e: Setup, k: nat): Setup {
    e.(transport := (n: nat, req: Request) =>
      if n < k then e.transport(n, req) else Response(400, None, ""))
  }

  lemma RefusedResult(e: Setup, k: nat, l: Lane)
    requires Quiet(l) && l.core.metrics.requests == k
    requires !l.core.cancelled && !l.core.cursor.exhausted
    ensures var l' := Complete(RefusingFrom(e, k), BeginFetch(l));
            && l'.core.cursor == l.core.cursor && !l'.core.cancelled
            && (Last(l').pc == Returned(Failed(CLIENT))
                || Last(l').pc == Returned(Failed(BUDGET_EXHAUSTED)))
  {
    var e' := RefusingFrom(e, k);
    if BudgetExceeded(e'.policy, l.core.spent) {
      var f, c := Begin(l.core), l.core;
      Faultless.RunOn(e', f, c);
      Faultless.RunOn(e', f.(pc := CheckCancel), c);
      Faultless.RunOn(e', f.(pc := CheckBudget), c);
    } else {
      Drain.RefusedFetch(e', l);
    }
  }

  // -- The past does not depend on what the server will answer --

  /** The transports agree on the requests sent by the end of `s`. */
  ghost predicate AgreeUpTo(e: Setup, t: (nat, Request) -> Response, k: nat) {
    forall n: nat, req: Request :: n < k ==> t(n, req) == e.transport(n, req)
  }

  lemma StepAgrees(e: Setup, t: (nat, Request) -> Response, f: Fetch, c: Core)
    requires Running(f) && AgreeUpTo(e, t, Step(e, f, c).1.metrics.requests)
    ensures Step(e.(transport := t), f, c) == Step(e, f, c)
  {
  }

  lemma RequestsGrowStep(e: Setup, f: Fetch, c: Core)
    requires Running(f)
    ensures Step(e, f, c).1.metrics.requests >= c.metrics.requests
  {
  }

  lemma RequestsGrow(e: Setup, s: System, a: Action)
    ensures Do(e, s, a).lane.core.metrics.requests >= s.lane.core.metrics.requests
  {
    if a.Work? && a.thread < |s.lane.fetches| && Running(s.lane.fetches[a.thread]) {
      RequestsGrowStep(e, s.lane.fetches[a.thread], s.lane.core);
    }
  }

  lemma WorkAgrees(e: Setup, t: (nat, Request) -> Response, s: System, i: nat)
    requires AgreeUpTo(e, t, DoWork(e, s, i).lane.core.metrics.requests)
    ensures DoWork(e.(transport := t), s, i) == DoWork(e, s, i)
  {
    var allowed := if Enabled(e) then i in s.alive else s.consumer.Inline? && i == Newest(s);
    if allowed && i < |s.lane.fetches| && Running(s.lane.fetches[i]) {
      StepAgrees(e, t, s.lane.fetches[i], s.lane.core);
    }
  }

  lemma DoAgrees(e: Setup, t: (nat, Request) -> Response, s: System, a: Action)
    requires AgreeUpTo(e, t, Do(e, s, a).lane.core.metrics.requests)
    ensures Do(e.(transport := t), s, a) == Do(e, s, a)
  {
    if a.Work? { WorkAgrees(e, t, s, a.thread); }
  }

  lemma {:induction false} ExecAgrees(e: Setup, t: (nat, Request) -> Response, acts: seq<Action>)
    requires AgreeUpTo(e, t, Exec(e, acts).lane.core.metrics.requests)
    ensures Exec(e.(transport := t), acts) == Exec(e, acts)
  {
    if acts != [] {
      var before, a := acts[..|acts| - 1], acts[|acts| - 1];
      RequestsGrow(e, Exec(e, before), a);
      ExecAgrees(e, t, before);
      DoAgrees(e, t, Exec(e, before), a);
    }
  }

  lemma RefusingContinues(e: Setup, acts: seq<Action>)
    ensures Continues(e, acts, RefusingFrom(e, Exec(e, acts).lane.core.metrics.requests))
  {
    var k := Exec(e, acts).lane.core.metrics.requests;
    ExecAgrees(e, RefusingFrom(e, k).transport, acts);
  }

  /** One refused call. */
  lemma RefusedCall(e: Setup, acts: seq<Action>, k: nat) returns (more: seq<Action>)
    requires !Enabled(e) && Exec(RefusingFrom(e, k), acts).consumer.Idle?
    requires var l := Exec(RefusingFrom(e, k), acts).lane;
             && !l.core.cancelled && !l.core.cursor.exhausted && l.core.metrics.requests == k
    ensures var s, u := Exec(RefusingFrom(e, k), acts), Exec(RefusingFrom(e, k), acts + more);
            && u.consumer.Idle? && !u.lane.core.cancelled && !u.lane.core.cursor.exhausted
            && |u.returned| == |s.returned| + 1
            && (u.returned[|s.returned|].result == Failed(CLIENT)
                || u.returned[|s.returned|].result == Failed(BUDGET_EXHAUSTED))
  {
    var e' := RefusingFrom(e, k);
    var s := Exec(e', acts);
    ProtocolInvariant(e', acts);
    more := CallIsSchedule(e', acts, QUIET, 0);
    var r := RunUnder(e', Begin(s.lane.core), s.lane.core, QUIET, 0);
    UndisturbedRun(e', Begin(s.lane.core), s.lane.core, QUIET, 0);
    QuietCall(e', s, r.0, r.1, Exec(e', acts + more));
    RefusedResult(e, k, s.lane);
  }

  /** Then cancel, and call again. */
  lemma CancelThenCall(e: Setup, s: System) returns (acts: seq<Action>)
    requires !Enabled(e) && s.consumer.Idle? && !s.lane.core.cursor.exhausted
    ensures var t := Apply(e, s, acts);
            t.returned == s.returned + [Return(Failed(CANCELLED), true)]
  {
    var s1 := Do(e, s, CancelSet);
    assert Apply(e, s, [CancelSet]) == Apply(e, s1, [CancelSet][1..]) == s1;
    var call := SomeInlineReturn(e, s1);
    ApplyAll(e, s, [CancelSet], call);
    acts := [CancelSet] + call;
  }

  lemma RefusedThenCancelled(e: Setup, acts: seq<Action>, k: nat) returns (more: seq<Action>)
    requires !Enabled(e) && Exec(RefusingFrom(e, k), acts).consumer.Idle?
    requires var l := Exec(RefusingFrom(e, k), acts).lane;
             && !l.core.cancelled && !l.core.cursor.exhausted && l.core.metrics.requests == k
    ensures TwoDiffer(|Exec(RefusingFrom(e, k), acts).returned|, Exec(RefusingFrom(e, k), acts + more))
  {
    var first := RefusedCall(e, acts, k);
    var e' := RefusingFrom(e, k);
    ExecIsRun(e');
    more := CancelledNext(e', (acts: seq<Action>) => Exec(e', acts), acts, first,
                          |Exec(e', acts).returned|);
  }

  lemma CancelledSecond(e: Setup, u: System, n: nat) returns (second: seq<Action>)
    requires !Enabled(e) && u.consumer.Idle? && !u.lane.core.cursor.exhausted
    requires |u.returned| == n + 1
    requires u.returned[n].result == Failed(CLIENT) || u.returned[n].result == Failed(BUDGET_EXHAUSTED)
    ensures TwoDiffer(n, Apply(e, u, second))
  {
    second := CancelThenCall(e, u);
  }

  predicate RefusedState(u: System, n: nat) {
    && u.consumer.Idle? && !u.lane.core.cursor.exhausted && |u.returned| == n + 1
    && (u.returned[n].result == Failed(CLIENT) || u.returned[n].result == Failed(BUDGET_EXHAUSTED))
  }

  lemma CancelledNext(
    e: Setup, run: seq<Action> -> System, acts: seq<Action>, first: seq<Action>, n: nat)
    returns (more: seq<Action>)
    requires !Enabled(e) && IsRun(e, run) && RefusedState(run(acts + first), n)
    ensures TwoDiffer(n, run(acts + more))
  {
    var second := CancelledSecond(e, run(acts + first), n);
    ApplyOn(e, run, acts + first, second);
    more := first + second;
    assert acts + more == acts + first + second;
  }

  lemma InlineDiffers(dump: Json -> string, e: Setup, acts: seq<Action>)
    returns (e': Setup, more: seq<Action>)
    requires !Enabled(e) && Exec(e, acts).consumer.Idle?
    requires !Exec(e, acts).lane.core.cancelled && !Exec(e, acts).lane.core.cursor.exhausted
    ensures Continues(e, acts, e')
    ensures !Unnoticed(dump, Exec(e', acts + more).returned, |Exec(e, acts).returned|)
  {
    var k := Exec(e, acts).lane.core.metrics.requests;
    e' := RefusingFrom(e, k);
    RefusingContinues(e, acts);
    more := RefusedThenCancelled(e, acts, k);
    DifferentIsNoticed(dump, Exec(e', acts + more).returned, |Exec(e, acts).returned|);
  }

  // ---- The condition ----

  /** Told from the engine's state between calls: sequential, an exhausted cursor or a cancelled
      stream; prefetching, a batch ready to be handed out, or a cancelled stream with nothing to hand
      out but CANCELLED. */
  predicate LossIsHarmless(e: Setup, s: System) {
    if Enabled(e) then PrefetchSettled(s)
    else s.lane.core.cursor.exhausted || s.lane.core.cancelled
  }

  /** From every reachable state between calls: on every continuation, whatever the server answers from
      now on, losing the next result, if it is an error, goes unnoticed, if and only if the condition
      holds. */
  lemma UnnoticedIff(dump: Json -> string, e: Setup, acts: seq<Action>)
    requires Exec(e, acts).consumer.Idle?
    ensures (forall e': Setup, more: seq<Action> :: Continues(e, acts, e') ==>
               Unnoticed(dump, Exec(e', acts + more).returned, |Exec(e, acts).returned|))
       <==> LossIsHarmless(e, Exec(e, acts))
  {
    if LossIsHarmless(e, Exec(e, acts)) {
      forall e': Setup, more: seq<Action> | Continues(e, acts, e')
        ensures Unnoticed(dump, Exec(e', acts + more).returned, |Exec(e, acts).returned|)
      {
        HarmlessHolds(dump, e', acts, more);
      }
    } else {
      var e', more := Harmful(dump, e, acts);
    }
  }

  lemma HarmlessHolds(dump: Json -> string, e: Setup, acts: seq<Action>, more: seq<Action>)
    requires Exec(e, acts).consumer.Idle? && LossIsHarmless(e, Exec(e, acts))
    ensures Unnoticed(dump, Exec(e, acts + more).returned, |Exec(e, acts).returned|)
  {
    if Enabled(e) {
      PrefetchSettledHolds(dump, e, acts, more);
    } else {
      InlineSettledHolds(dump, e, acts, more);
    }
  }

  lemma Harmful(dump: Json -> string, e: Setup, acts: seq<Action>)
    returns (e': Setup, more: seq<Action>)
    requires Exec(e, acts).consumer.Idle? && !LossIsHarmless(e, Exec(e, acts))
    ensures Continues(e, acts, e')
    ensures !Unnoticed(dump, Exec(e', acts + more).returned, |Exec(e, acts).returned|)
  {
    if Enabled(e) {
      e' := e;
      ProtocolInvariant(e, acts);
      CancelledHolds(e, acts);
      SlotShape(e, acts);
      more := PrefetchDiffers(e, Exec(e, acts));
      Differing(dump, e, acts, more);
    } else {
      e', more := InlineDiffers(dump, e, acts);
    }
  }
}
