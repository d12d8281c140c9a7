/**
 What happens when nothing goes wrong: every page of the chain is delivered, in both modes. And
 what a single 429 does to a Datadog stream.
 */
module Faultless {
  import opened Wire
  import opened Fetching
  import opened Prefetch
  import opened Refinement
  import opened Chain
  import opened DefaultPolicy
  import opened Windows
  import Datadog

  // ---- One fetch cycle, step by step ----

  lemma RunOn(e: Setup, f: Fetch, c: Core)
    requires Running(f)
    ensures RunFetch(e, f, c) == RunFetch(e, Step(e, f, c).0, Step(e, f, c).1)
  {
  }

  predicate Admitted(e: Setup, c: Core) {
    !c.cancelled && !c.cursor.exhausted && !BudgetExceeded(e.policy, c.spent)
  }

  /** An admitted cycle reaches the retry loop with nothing changed. */
  lemma ReachesLoop(e: Setup, c: Core)
    requires Admitted(e, c)
    ensures RunFetch(e, Begin(c), c) == RunFetch(e, Begin(c).(pc := Loop), c)
  {
    var f := Begin(c);
    RunOn(e, f, c);
    RunOn(e, f.(pc := CheckCancel), c);
    RunOn(e, f.(pc := CheckBudget), c);
  }

  /** The answer to the next request. */
  function Answer(e: Setup, c: Core): Response {
    e.transport(c.metrics.requests, e.adapter.build(c.cursor))
  }

  function Counted(c: Core): Core {
    c.(metrics := c.metrics.(requests := c.metrics.requests + 1))
  }

  lemma SendsRequest(e: Setup, f: Fetch, c: Core)
    requires f.pc.Loop? && !c.cancelled
    ensures RunFetch(e, f, c)
         == RunFetch(e, f.(pc := Handle(e.adapter.build(c.cursor), Answer(e, c)), sent := f.sent + 1),
                     Counted(c))
  {
    RunOn(e, f, c);
    RunOn(e, f.(pc := Send), c);
  }

  /** What accepting a batch leaves in the core, the counters apart. */
  predicate AcceptedInto(e: Setup, saw429: bool, c: Core, st: AdapterState, batch: Batch, c': Core) {
    var next := e.adapter.next(st, c.cursor);
    && c'.cursor == (if saw429 then next else e.policy.adjust(next, true))
    && c'.log == c.log + [Accepted(e.adapter.build(c.cursor), batch, e.adapter.cost(st))]
    && c'.cancelled == c.cancelled && c'.metrics.requests == c.metrics.requests + 1
    && c'.spent == RecordCost(e.policy, c.spent, e.adapter.cost(st))
  }

  /** From the retry loop, a readable answer is accepted and returned. */
  lemma ServesFromLoop(e: Setup, f: Fetch, c: Core, st: AdapterState, batch: Batch)
    requires f.pc.Loop? && !c.cancelled && Proceeds(Answer(e, c))
    requires e.adapter.parse(c.adapter, Answer(e, c).body) == (st, Some(batch))
    ensures var (f', c') := RunFetch(e, f, c);
            f'.pc == Returned(Yielded(batch)) && AcceptedInto(e, f.saw429, c, st, batch, c')
  {
    var req, resp := e.adapter.build(c.cursor), Answer(e, c);
    SendsRequest(e, f, c);
    var f1, c1 := f.(pc := Handle(req, resp), sent := f.sent + 1), Counted(c);
    RunOn(e, f1, c1);
    var f2 := f1.(pc := Parse(req, resp));
    assert Step(e, f1, c1) == (f2, c1);
    RunOn(e, f2, c1);
    var f3, c3 := f2.(pc := Advance(req, batch)), c1.(adapter := st);
    assert Step(e, f2, c1) == (f3, c3);
    RunOn(e, f3, c3);
    var (f4, c4) := Step(e, f3, c3);
    RunOn(e, f4, c4);
    var (f5, c5) := Step(e, f4, c4);
    RunOn(e, f5, c5);
  }

  /** A first 429 that may be retried shrinks the window and goes round the loop once. */
  lemma LimitedOnce(e: Setup, f: Fetch, c: Core)
    requires f.pc.Loop? && !c.cancelled && !f.saw429 && f.retry < e.policy.maxRetries
    requires IsRateLimited(Answer(e, c))
    ensures exists f', c' ::
              && RunFetch(e, f, c) == RunFetch(e, f', c')
              && f'.pc.Loop? && f'.saw429
              && c'.cursor == e.policy.adjust(c.cursor, false)
              && c'.log == c.log && c'.cancelled == c.cancelled && c'.spent == c.spent
              && c'.metrics.requests == c.metrics.requests + 1
  {
    SendsRequest(e, f, c);
    var f1 := f.(pc := Handle(e.adapter.build(c.cursor), Answer(e, c)), sent := f.sent + 1);
    RunOn(e, f1, Counted(c));
    HandleEffect(e, f1, Counted(c));
    var (f', c') := Step(e, f1, Counted(c));
    assert f'.pc.Loop? && f'.saw429;
  }

  // ---- A server that always answers ----

  /** Every request is answered with the server's page. */
  ghost predicate Serving(e: Setup, server: Server) {
    forall n: nat, req: Request :: e.transport(n, req) == Response(200, Some(server(req)), "")
  }

  predicate Unlimited(p: Policy) { p.budget.None? || p.budget.value <= 0.0 }

  /** The first N positions of the chain are open and their pages readable. */
  predicate Readable(e: Setup, server: Server, N: nat) {
    forall k: nat :: k < N ==>
      !ChainCursor(e, server, k).exhausted && ChainBatch(e, server, k).Some?
  }

  lemma FaultlessFetch(e: Setup, server: Server, l: Lane, k: nat)
    requires HistoryFree(e.adapter) && Serving(e, server)
    requires !BudgetExceeded(e.policy, l.core.spent)
    requires Quiet(l) && !l.core.cancelled && l.core.cursor == ChainCursor(e, server, k)
    requires !ChainCursor(e, server, k).exhausted && ChainBatch(e, server, k).Some?
    ensures var l' := Complete(e, BeginFetch(l));
            && !l'.core.cancelled && l'.core.cursor == ChainCursor(e, server, k + 1)
            && Last(l').pc == Returned(Yielded(ChainBatch(e, server, k).value))
            && l'.core.spent == RecordCost(e.policy, l.core.spent,
                                           e.adapter.cost(Read(e, server, l.core.cursor).0))
  {
    var c := l.core;
    var req := e.adapter.build(c.cursor);
    assert Answer(e, c) == Response(200, Some(server(req)), "");
    assert e.adapter.parse(c.adapter, Some(server(req))).1
        == e.adapter.parse(FRESH_ADAPTER, Some(server(req))).1;
    ReachesLoop(e, c);
    ServesFromLoop(e, Begin(c).(pc := Loop), c, Read(e, server, c.cursor).0,
                   ChainBatch(e, server, k).value);
  }

  lemma {:induction false} FaultlessState(e: Setup, server: Server, N: nat, k: nat)
    requires HistoryFree(e.adapter) && Serving(e, server) && Unlimited(e.policy)
    requires Readable(e, server, N) && k <= N
    ensures var l := Sequential(e, k);
            !l.core.cancelled && l.core.cursor == ChainCursor(e, server, k)
    ensures k > 0 ==> Last(Sequential(e, k)).pc == Returned(Yielded(ChainBatch(e, server, k - 1).value))
  {
    if k > 0 {
      FaultlessState(e, server, N, k - 1);
      FaultlessFetch(e, server, Sequential(e, k - 1), k - 1);
    }
  }

  lemma FaultlessLives(e: Setup, server: Server, N: nat, k: nat)
    requires HistoryFree(e.adapter) && Serving(e, server) && Unlimited(e.policy)
    requires Readable(e, server, N) && k < N
    ensures Live(e, k)
  {
    assert !ChainCursor(e, server, 0).exhausted;
    forall j | 0 <= j < k
      ensures !StopsAfter(e, j)
    {
      FaultlessState(e, server, N, j + 1);
    }
  }

  /** With nothing going wrong, the k-th call delivers the chain's k-th page, in both modes. */
  lemma FaultlessDelivers(e: Setup, server: Server, N: nat, acts: seq<Action>, k: nat)
    requires HistoryFree(e.adapter) && Serving(e, server) && Unlimited(e.policy)
    requires Readable(e, server, N) && k < N
    requires !Exec(e, acts).lane.core.cancelled && k < |Exec(e, acts).returned|
    ensures Exec(e, acts).returned[k].result == Yielded(ChainBatch(e, server, k).value)
  {
    FaultlessState(e, server, N, k + 1);
    if Enabled(e) {
      FaultlessLives(e, server, N, k);
      PrefetchRefinesSequential(e, acts, k);
    } else {
      InlineIsSequential(e, acts, k);
    }
  }

  // ---- One 429 leaves a hole in a Datadog stream ----

  const HOUR_MS := 3600000
  const DEFAULTS := Config(5, 100, 1.5, 0.5, 60000, 86400000, 1)

  /** The default policy over hour-long windows; the second request, and no other, is limited. */
  function OneLimited(): Setup {
    Setup(Datadog.AsAdapter(HOUR_MS), AsPolicy(DEFAULTS, None),
          (n: nat, req: Request) =>
            if n == 1 then Response(429, None, "") else Response(200, Some(Datadog.METRICS_PAGE), ""),
          (n: nat) => 1.0,
          ZERO_CURSOR)
  }

  lemma PageReads(st: AdapterState)
    ensures Datadog.ParseSeries(st, Some(Datadog.METRICS_PAGE))
         == (AdapterState(Datadog.METRICS_PAGE, 0), Some([Num(1)]))
    ensures forall c :: Datadog.NextRange(HOUR_MS, AdapterState(Datadog.METRICS_PAGE, 0), c)
                        == c.(start := c.start + HOUR_MS, end := c.start + HOUR_MS + HOUR_MS)
  {
    var s := Obj(map["pointlist" := Arr([Num(1)])]);
    var series := [s];
    assert Datadog.METRICS_PAGE.Field("series") == Some(Arr(series));
    assert Datadog.Points(s) == [Num(1)];
    assert series[..0] == [] && Datadog.Flatten(series[..0]) == [];
    assert Datadog.Flatten(series) == [Num(1)];
  }

  /** The window one success leaves: it grows to an hour and a half. */
  lemma FirstWindow()
    ensures var c := ZERO_CURSOR.(start := 3600000, end := 7200000);
            OneLimited().policy.adjust(c, true) == c.(end := 9000000)
  {
    assert Grow(DEFAULTS, 3600000) == 5400000;
  }

  lemma UnlimitedHour(c: Core)
    requires c.cursor == ZERO_CURSOR && c.metrics.requests == 0 && !c.cancelled
    ensures var c' := RunFetch(OneLimited(), Begin(c), c).1;
            && c'.log == c.log + [Accepted(Range(0, 3600), [Num(1)], None)]
            && c'.cursor == ZERO_CURSOR.(start := 3600000, end := 9000000)
            && c'.metrics.requests == 1 && !c'.cancelled
  {
    PageReads(c.adapter);
    ReachesLoop(OneLimited(), c);
    var st := AdapterState(Datadog.METRICS_PAGE, 0);
    ServesFromLoop(OneLimited(), Begin(c).(pc := Loop), c, st, [Num(1)]);
    FirstWindow();
  }

  lemma FirstHour()
    ensures var c := Sequential(OneLimited(), 1).core;
            && c.log == [Accepted(Range(0, 3600), [Num(1)], None)]
            && c.cursor == ZERO_CURSOR.(start := 3600000, end := 9000000)
            && c.metrics.requests == 1 && !c.cancelled
  {
    var e := OneLimited();
    var l := Sequential(e, 0);
    UnlimitedHour(l.core);
    assert Sequential(e, 1).core == RunFetch(e, Begin(l.core), l.core).1;
  }

  /** The window a 429 leaves to the second cycle: 45 minutes instead of an hour. */
  lemma SecondWindow()
    ensures var c := ZERO_CURSOR.(start := 3600000, end := 9000000);
            OneLimited().policy.adjust(c, false) == c.(end := 6300000)
  {
    assert Shrink(DEFAULTS, 5400000) == 2700000;
  }

  lemma AfterShrink(f: Fetch, c: Core)
    requires f.pc.Loop? && f.saw429 && c.metrics.requests == 2 && !c.cancelled
    requires c.cursor == ZERO_CURSOR.(start := 3600000, end := 6300000)
    ensures var c' := RunFetch(OneLimited(), f, c).1;
            && c'.log == c.log + [Accepted(Range(3600, 6300), [Num(1)], None)]
            && c'.cursor.start == 7200000
  {
    PageReads(c.adapter);
    ServesFromLoop(OneLimited(), f, c, AdapterState(Datadog.METRICS_PAGE, 0), [Num(1)]);
  }

  lemma LimitedHour(c: Core)
    requires c.cursor == ZERO_CURSOR.(start := 3600000, end := 9000000)
    requires c.metrics.requests == 1 && !c.cancelled
    ensures var c' := RunFetch(OneLimited(), Begin(c), c).1;
            && c'.log == c.log + [Accepted(Range(3600, 6300), [Num(1)], None)]
            && c'.cursor.start == 7200000
  {
    var e := OneLimited();
    ReachesLoop(e, c);
    LimitedOnce(e, Begin(c).(pc := Loop), c);
    var f', c' :|
      && RunFetch(e, Begin(c).(pc := Loop), c) == RunFetch(e, f', c')
      && f'.pc.Loop? && f'.saw429 && c'.cursor == e.policy.adjust(c.cursor, false)
      && c'.log == c.log && c'.cancelled == c.cancelled && c'.spent == c.spent
      && c'.metrics.requests == c.metrics.requests + 1;
    SecondWindow();
    AfterShrink(f', c');
  }

  lemma SecondHour()
    ensures var c := Sequential(OneLimited(), 2).core;
            && c.log == [Accepted(Range(0, 3600), [Num(1)], None),
                         Accepted(Range(3600, 6300), [Num(1)], None)]
            && c.cursor.start == 7200000
  {
    var e := OneLimited();
    var l := Sequential(e, 1);
    FirstHour();
    LimitedHour(l.core);
    assert Sequential(e, 2).core == RunFetch(e, Begin(l.core), l.core).1;
  }

  /** The hypothesis of Datadog.NoHoleWithout429 is needed: one 429 in the second cycle, and the
      quarter hour from second 6300 on is never queried though the cursor has passed it. */
  lemma HoleAfter429(t: int)
    requires 6300 <= t < 7200
    ensures var c := Sequential(OneLimited(), 2).core;
            && Datadog.DatadogRun(OneLimited(), DEFAULTS, HOUR_MS) && HOUR_MS <= DEFAULTS.maxWindowMs
            && t < Datadog.Seconds(|c.log| * HOUR_MS)
            && forall i :: !Datadog.Covers(c.log, i, t)
  {
    SecondHour();
    AsPolicyFollows(DEFAULTS, None);
  }
}
