/**
 Datadog streams against a server that limits requests: how windows shrink and recover, cycle by
 cycle, and that the stream gets past a thousand windows all the same, in either mode.
 */
module Weathers {
  import opened Wire
  import opened Fetching
  import opened Prefetch
  import opened Refinement
  import opened Realised
  import opened Faultless
  import opened Chain
  import opened DefaultPolicy
  import opened Windows
  import opened Datadog

  const PAGE_200 := Response(200, Some(METRICS_PAGE), "")
  const LIMIT_429 := Response(429, None, "")

  /** The request asks for second t. */
  predicate AsksFor(req: Request, t: int) { req.Range? && req.fromSec <= t < req.toSec }

  /** The hole will be the last second of the first thousandth, `windowMs - 1`: a thousand windows
      end there. */
  const SLOTS := 1000

  // ---- The adversary ----

  /** Every answer is a page, or a 429 to a range that asks for second windowMs - 1. */
  ghost predicate Weather(e: Setup, cfg: Config, windowMs: int) {
    && DatadogRun(e, cfg, windowMs) && !e.initial.exhausted && windowMs > cfg.minWindowMs
    && forall n: nat, req: Request ::
         e.transport(n, req) == PAGE_200
         || (e.transport(n, req) == LIMIT_429 && AsksFor(req, windowMs - 1))
  }

  /** Such a policy against the given transport, from the zero cursor. */
  function Against(p: Policy, windowMs: int, transport: (nat, Request) -> Response): Setup {
    Setup(Datadog.AsAdapter(windowMs), p, transport, (n: nat) => 1.0, ZERO_CURSOR)
  }

  /** Limits exactly the requests that ask for second windowMs - 1. */
  function Storm(p: Policy, windowMs: int): Setup {
    Against(p, windowMs, (n: nat, req: Request) =>
      if AsksFor(req, windowMs - 1) then LIMIT_429 else PAGE_200)
  }

  /** Limits every other request. */
  function Showers(p: Policy, windowMs: int): Setup {
    Against(p, windowMs, (n: nat, req: Request) => if n % 2 == 0 then LIMIT_429 else PAGE_200)
  }

  /** Limits nothing. */
  function Sunshine(p: Policy, windowMs: int): Setup {
    Against(p, windowMs, (n: nat, req: Request) => PAGE_200)
  }

  lemma AreWeather(p: Policy, cfg: Config, windowMs: int)
    requires Follows(p, cfg) && windowMs > cfg.minWindowMs
    ensures Weather(Storm(p, windowMs), cfg, windowMs)
    ensures Weather(Sunshine(p, windowMs), cfg, windowMs) && NeverLimited(Sunshine(p, windowMs))
  {
  }

  // ---- One fetch cycle of such a run ----

  /** A cycle begun with k0 responses accepted: it ends OK, or RATE_LIMIT after a 429, and then its
      range asked for second windowMs - 1. */
  predicate Weathered(windowMs: int, k0: nat, f: Fetch, c: Core) {
    && !c.cancelled && !c.cursor.exhausted && c.spent == 0.0
    && |c.log| == k0 + (if Accepting(f) then 1 else 0)
    && (f.saw429 ==> AsksFor(Query(windowMs, f.from), windowMs - 1))
    && match f.pc
       case Handle(req, resp) =>
         resp == PAGE_200 || (resp == LIMIT_429 && AsksFor(req, windowMs - 1))
       case Parse(req, resp) => resp == PAGE_200
       case Advance(req, batch) => c.adapter.lastParsed == METRICS_PAGE
       case Returned(r) => r.Ok() || f.saw429
       case _ => true
  }

  lemma PageIsRead(windowMs: int, st: AdapterState, c: Cursor)
    ensures var (st', batch) := ParseSeries(st, PAGE_200.body);
            && st'.lastParsed == METRICS_PAGE && batch.Some?
            && NextRange(windowMs, st', c).exhausted == c.exhausted
  {
    assert METRICS_PAGE.Field("series").Some?;
  }

  /** The range of the first request of a cycle is that of the cursor it began from. */
  lemma WeatheredHandle(e: Setup, cfg: Config, windowMs: int, k0: nat, f: Fetch, c: Core)
    requires Weather(e, cfg, windowMs) && f.pc.Handle? && Stands(cfg, windowMs, f, c)
    requires Weathered(windowMs, k0, f, c)
    ensures var (f', c') := HandleError(e, f, c); Weathered(windowMs, k0, f', c')
  {
    HandleEffect(e, f, c);
    if f.pc.resp == LIMIT_429 && !f.saw429 { SameQuery(cfg, windowMs, f, c); }
    assert e.policy.adjust(c.cursor, false) == AdjustCursor(cfg, c.cursor, false);
  }

  lemma SameQuery(cfg: Config, windowMs: int, f: Fetch, c: Core)
    requires Stands(cfg, windowMs, f, c) && f.pc.Handle? && !f.saw429
    requires |c.log| == 0 ==> f.from.end == c.cursor.end
    ensures f.pc.req == Query(windowMs, f.from)
  {
  }

  lemma WeatheredStep(e: Setup, cfg: Config, windowMs: int, k0: nat, f: Fetch, c: Core)
    requires Weather(e, cfg, windowMs) && Running(f) && Stands(cfg, windowMs, f, c)
    requires Weathered(windowMs, k0, f, c)
    ensures Weathered(windowMs, k0, Step(e, f, c).0, Step(e, f, c).1)
  {
    if f.pc.Handle? {
      WeatheredHandle(e, cfg, windowMs, k0, f, c);
    } else if f.pc.Parse? {
      PageIsRead(windowMs, c.adapter, c.cursor);
    } else if f.pc.Advance? {
      var next := e.adapter.next(c.adapter, c.cursor);
      assert next == NextRange(windowMs, c.adapter, c.cursor);
      assert e.policy.adjust(next, true) == AdjustCursor(cfg, next, true);
      PageIsRead(windowMs, c.adapter, c.cursor);
    } else {
      CursorUntouched(e, f, c);
    }
  }

  // ---- A whole cycle ----

  lemma WeatheredRun(
    e: Setup, cfg: Config, windowMs: int, k0: nat, f: Fetch, c: Core)
    requires Weather(e, cfg, windowMs) && Stands(cfg, windowMs, f, c) && Weathered(windowMs, k0, f, c)
    ensures var (g, d) := RunFetch(e, f, c);
            Stands(cfg, windowMs, g, d) && Weathered(windowMs, k0, g, d) && g.from == f.from
    decreases Max(0, e.policy.maxRetries - f.retry), Rank(f.pc)
  {
    if Running(f) {
      StepDescends(e, f, c);
      StandsStep(e, cfg, windowMs, f, c);
      WeatheredStep(e, cfg, windowMs, k0, f, c);
      WeatheredRun(e, cfg, windowMs, k0, Step(e, f, c).0, Step(e, f, c).1);
    }
  }

  /** A finished run of cycles in such weather. */
  predicate Resting(e: Setup, cfg: Config, windowMs: int, l: Lane) {
    && Quiet(l) && !l.core.cancelled && !l.core.cursor.exhausted && l.core.spent == 0.0
    && LaneStands(e, cfg, windowMs, l)
  }

  /** One more cycle: a success, or a smaller window. */
  lemma OneCycle(e: Setup, cfg: Config, windowMs: int, l: Lane)
    requires Weather(e, cfg, windowMs) && Resting(e, cfg, windowMs, l) && |l.core.log| < SLOTS
    ensures var c, l' := l.core, Complete(e, BeginFetch(l));
            && Resting(e, cfg, windowMs, l')
            && (|l'.core.log| == |c.log| + 1
                || (|l'.core.log| == |c.log| > 0
                    && 0 < l'.core.cursor.Window() < c.cursor.Window()))
  {
    var f, c := Begin(l.core), l.core;
    StandsTick(e, cfg, windowMs, l, BeginTick);
    assert Last(BeginFetch(l)) == f;
    WeatheredRun(e, cfg, windowMs, |c.log|, f, c);
    var (g, d) := RunFetch(e, f, c);
    assert Last(Complete(e, BeginFetch(l))) == g;
    if !IsOk(g) { WindowShrank(cfg, windowMs, g, d); }
  }

  lemma WindowShrank(cfg: Config, windowMs: int, f: Fetch, c: Core)
    requires Valid(cfg) && windowMs > cfg.minWindowMs && Stands(cfg, windowMs, f, c)
    requires IsFailure(f) && f.saw429 && |c.log| < SLOTS
    requires AsksFor(Query(windowMs, f.from), windowMs - 1)
    requires |c.log| == 0 ==> f.from.start == 0 && f.from.end == 0
    ensures |c.log| > 0 && 0 < c.cursor.Window() < f.from.Window()
    ensures f.from.Window() >= windowMs && c.cursor.Window() == Shrink(cfg, f.from.Window())
  {
    var k := |c.log|;
    if k > 0 {
      var x := f.from.Window();
      NextMultiple(k, windowMs);
      FarEnough(k, windowMs, x);
      ShrinksBelow(cfg, x);
    }
  }

  lemma TimesAtMost(a: int, b: int, w: int)
    requires a <= b && w >= 0
    ensures a * w <= b * w
  {
    assert (b - a) * w >= 0;
  }

  /** A range in the first thousand windows that asks for second windowMs - 1 is at least as wide
      as the configured window. */
  lemma FarEnough(k: nat, windowMs: int, x: int)
    requires 0 < k < SLOTS && windowMs > 0 && Seconds(k * windowMs + x) > windowMs - 1 && x > 0
    ensures x >= windowMs
  {
    TimesAtMost(k, SLOTS - 1, windowMs);
  }

  lemma ShrinksBelow(cfg: Config, x: int)
    requires Valid(cfg) && x > cfg.minWindowMs
    ensures 0 < Shrink(cfg, x) < x
  {
    StrictlyLess(x, cfg.shrinkFactor);
  }

  lemma StrictlyLess(x: int, s: real)
    requires x > 0 && 0.0 < s < 1.0
    ensures Product(x as real, s).Floor < x
  {
    assert x as real * (1.0 - s) > 0.0;
  }

  /** The window, once there is one. */
  function Room(c: Core): nat { if c.log == [] then 0 else Max(0, c.cursor.Window()) }

  /** Such a run reaches a thousand successes. */
  lemma Reach(e: Setup, cfg: Config, windowMs: int, n: nat) returns (m: nat)
    requires Weather(e, cfg, windowMs) && Resting(e, cfg, windowMs, Sequential(e, n))
    requires |Sequential(e, n).core.log| <= SLOTS
    ensures |Sequential(e, m).core.log| == SLOTS
    decreases SLOTS - |Sequential(e, n).core.log|, Room(Sequential(e, n).core)
  {
    m := n;
    if |Sequential(e, n).core.log| < SLOTS {
      OneCycle(e, cfg, windowMs, Sequential(e, n));
      m := Reach(e, cfg, windowMs, n + 1);
    }
  }

  lemma StormReaches(e: Setup, cfg: Config, windowMs: int) returns (n: nat)
    requires Weather(e, cfg, windowMs)
    ensures |Sequential(e, n).core.log| == SLOTS
  {
    n := Reach(e, cfg, windowMs, 0);
  }

  // ---- Without retries ----

  /** The window an accepted response leaves: the configured one, grown unless a 429 was seen. */
  predicate Regrown(cfg: Config, windowMs: int, f: Fetch, c: Core) {
    Accepting(f) ==> c.cursor.Window() == if f.saw429 then windowMs else Grow(cfg, windowMs)
  }

  lemma RegrownAdvance(e: Setup, cfg: Config, windowMs: int, f: Fetch, c: Core)
    requires DatadogRun(e, cfg, windowMs) && f.pc.Advance? && Stands(cfg, windowMs, f, c)
    ensures var (g, d) := AdvanceCursor(e, f, c); Regrown(cfg, windowMs, g, d)
  {
    var next := e.adapter.next(c.adapter, c.cursor);
    assert next == NextRange(windowMs, c.adapter, c.cursor);
    assert e.policy.adjust(next, true) == AdjustCursor(cfg, next, true);
    NextMultiple(|c.log|, windowMs);
  }

  lemma RegrownStep(e: Setup, cfg: Config, windowMs: int, f: Fetch, c: Core)
    requires DatadogRun(e, cfg, windowMs) && Running(f) && Stands(cfg, windowMs, f, c)
    requires Regrown(cfg, windowMs, f, c)
    ensures Regrown(cfg, windowMs, Step(e, f, c).0, Step(e, f, c).1)
  {
    if f.pc.Handle? {
      HandleEffect(e, f, c);
    } else if f.pc.Advance? {
      RegrownAdvance(e, cfg, windowMs, f, c);
    } else {
      CursorUntouched(e, f, c);
    }
  }

  /** With no retries a 429 ends the cycle. */
  predicate Unretried(f: Fetch) { f.saw429 ==> IsFailure(f) }

  lemma UnretriedStep(e: Setup, f: Fetch, c: Core)
    requires Running(f) && e.policy.maxRetries == 0 && Unretried(f)
    ensures Unretried(Step(e, f, c).0)
  {
    if f.pc.Handle? { HandleEffect(e, f, c); }
  }

  lemma UnretriedRun(e: Setup, cfg: Config, windowMs: int, f: Fetch, c: Core)
    requires DatadogRun(e, cfg, windowMs) && e.policy.maxRetries == 0
    requires Stands(cfg, windowMs, f, c) && Regrown(cfg, windowMs, f, c) && Unretried(f)
    ensures var (g, d) := RunFetch(e, f, c); Regrown(cfg, windowMs, g, d) && Unretried(g)
    decreases Max(0, e.policy.maxRetries - f.retry), Rank(f.pc)
  {
    if Running(f) {
      StepDescends(e, f, c);
      StandsStep(e, cfg, windowMs, f, c);
      RegrownStep(e, cfg, windowMs, f, c);
      UnretriedStep(e, f, c);
      UnretriedRun(e, cfg, windowMs, Step(e, f, c).0, Step(e, f, c).1);
    }
  }

  /** After n cycles without retries: a success leaves the grown window, a failure, which only ever
      follows a success, the same shrunk once. */
  predicate Paced(e: Setup, cfg: Config, windowMs: int, n: nat) {
    var l := Sequential(e, n);
    && Resting(e, cfg, windowMs, l)
    && (n > 0 ==> l.core.log != [])
    && (n > 0 && IsOk(Last(l)) ==> l.core.cursor.Window() == Grow(cfg, windowMs))
    && (n > 0 && !IsOk(Last(l)) ==>
          && l.core.cursor.Window() == Shrink(cfg, Grow(cfg, windowMs))
          && n > 1 && SequentialResult(e, n - 2).Ok())
  }

  /** Where such a cycle has ended. */
  predicate PacedEnd(cfg: Config, windowMs: int, k0: nat, from: Cursor, g: Fetch, d: Core) {
    && g.from == from && g.pc.Returned?
    && (IsOk(g) ==> |d.log| == k0 + 1 && d.cursor.Window() == Grow(cfg, windowMs))
    && (!IsOk(g) ==> |d.log| == k0 > 0 && from.Window() >= windowMs
                     && d.cursor.Window() == Shrink(cfg, from.Window()))
  }

  lemma EndsPaced(cfg: Config, windowMs: int, k0: nat, from: Cursor, g: Fetch, d: Core)
    requires Valid(cfg) && windowMs > cfg.minWindowMs && k0 < SLOTS && !Running(g) && g.from == from
    requires Stands(cfg, windowMs, g, d) && Weathered(windowMs, k0, g, d)
    requires Regrown(cfg, windowMs, g, d) && Unretried(g)
    requires k0 == 0 ==> from.start == 0 && from.end == 0
    ensures PacedEnd(cfg, windowMs, k0, from, g, d)
  {
    if !IsOk(g) { WindowShrank(cfg, windowMs, g, d); }
  }

  lemma PacedCycle(e: Setup, cfg: Config, windowMs: int, f: Fetch, c: Core)
    requires Weather(e, cfg, windowMs) && e.policy.maxRetries == 0
    requires Stands(cfg, windowMs, f, c) && Weathered(windowMs, |c.log|, f, c) && |c.log| < SLOTS
    requires Regrown(cfg, windowMs, f, c) && Unretried(f)
    requires |c.log| == 0 ==> f.from.start == 0 && f.from.end == 0
    ensures var (g, d) := RunFetch(e, f, c);
            && Stands(cfg, windowMs, g, d) && Weathered(windowMs, |c.log|, g, d)
            && PacedEnd(cfg, windowMs, |c.log|, f.from, g, d)
  {
    WeatheredRun(e, cfg, windowMs, |c.log|, f, c);
    UnretriedRun(e, cfg, windowMs, f, c);
    EndsPaced(cfg, windowMs, |c.log|, f.from, RunFetch(e, f, c).0, RunFetch(e, f, c).1);
  }

  lemma NextSequential(e: Setup, n: nat)
    ensures var c := Sequential(e, n).core;
            var r := RunFetch(e, Begin(c), c);
            Last(Sequential(e, n + 1)) == r.0 && Sequential(e, n + 1).core == r.1
            && SequentialResult(e, n) == r.0.pc.result
  {
    assert Last(BeginFetch(Sequential(e, n))) == Begin(Sequential(e, n).core);
  }

  lemma BeginsWeathered(e: Setup, cfg: Config, windowMs: int, l: Lane)
    requires DatadogRun(e, cfg, windowMs) && Resting(e, cfg, windowMs, l)
    ensures var f, c := Begin(l.core), l.core;
            && Stands(cfg, windowMs, f, c) && Weathered(windowMs, |c.log|, f, c)
            && Regrown(cfg, windowMs, f, c) && Unretried(f) && !Accepting(f)
            && (|c.log| == 0 ==> f.from.start == 0 && f.from.end == 0)
  {
    StandsTick(e, cfg, windowMs, l, BeginTick);
    assert Last(BeginFetch(l)) == Begin(l.core);
  }

  lemma PacedNext(e: Setup, cfg: Config, windowMs: int, n: nat)
    requires Weather(e, cfg, windowMs) && e.policy.maxRetries == 0
    requires Shrink(cfg, Grow(cfg, windowMs)) < windowMs
    requires Paced(e, cfg, windowMs, n) && |Sequential(e, n).core.log| < SLOTS
    ensures Paced(e, cfg, windowMs, n + 1)
    ensures |Sequential(e, n + 1).core.log|
         == |Sequential(e, n).core.log| + if SequentialResult(e, n).Ok() then 1 else 0
    ensures !SequentialResult(e, n).Ok() ==> n > 0 && SequentialResult(e, n - 1).Ok()
  {
    var l, l' := Sequential(e, n), Sequential(e, n + 1);
    NextSequential(e, n);
    BeginsWeathered(e, cfg, windowMs, l);
    PacedCycle(e, cfg, windowMs, Begin(l.core), l.core);
  }

  /** How near a thousand windows such a run is: a success away, or a failure and a success. */
  function FailedLast(e: Setup, n: nat): nat {
    if n > 0 && !IsOk(Last(Sequential(e, n))) then 0 else 1
  }

  lemma PacedOn(e: Setup, cfg: Config, windowMs: int, n: nat)
    requires Weather(e, cfg, windowMs) && e.policy.maxRetries == 0
    requires Shrink(cfg, Grow(cfg, windowMs)) < windowMs
    requires Paced(e, cfg, windowMs, n) && |Sequential(e, n).core.log| < SLOTS && Live(e, n)
    ensures Paced(e, cfg, windowMs, n + 1) && Live(e, n + 1)
    ensures var k, k' := |Sequential(e, n).core.log|, |Sequential(e, n + 1).core.log|;
            k' == k + 1 || (k' == k && FailedLast(e, n + 1) < FailedLast(e, n))
  {
    PacedNext(e, cfg, windowMs, n);
    assert !StopsAfter(e, n);
  }

  /** Without retries the stream gets past a thousand windows with no two failures in a row. */
  lemma PacedReach(e: Setup, cfg: Config, windowMs: int, n: nat) returns (m: nat)
    requires Weather(e, cfg, windowMs) && e.policy.maxRetries == 0
    requires Shrink(cfg, Grow(cfg, windowMs)) < windowMs
    requires Paced(e, cfg, windowMs, n) && |Sequential(e, n).core.log| <= SLOTS && Live(e, n)
    ensures m >= n && |Sequential(e, m).core.log| == SLOTS && Live(e, m)
    decreases SLOTS - |Sequential(e, n).core.log|, FailedLast(e, n)
  {
    m := n;
    if |Sequential(e, n).core.log| < SLOTS {
      PacedOn(e, cfg, windowMs, n);
      m := PacedReach(e, cfg, windowMs, n + 1);
    }
  }

  // ---- With nothing limited ----

  predicate Dry(f: Fetch) { !f.saw429 && (f.pc.Handle? ==> f.pc.resp == PAGE_200) }

  lemma DryRun(e: Setup, f: Fetch, c: Core)
    requires Dry(f) && forall n: nat, req: Request :: e.transport(n, req) == PAGE_200
    ensures Dry(RunFetch(e, f, c).0)
    decreases Max(0, e.policy.maxRetries - f.retry), Rank(f.pc)
  {
    if Running(f) {
      StepDescends(e, f, c);
      if f.pc.Handle? { HandleEffect(e, f, c); } else if !f.pc.Advance? { CursorUntouched(e, f, c); }
      DryRun(e, Step(e, f, c).0, Step(e, f, c).1);
    }
  }

  lemma SunnyCycle(e: Setup, cfg: Config, windowMs: int, f: Fetch, c: Core)
    requires Weather(e, cfg, windowMs) && Stands(cfg, windowMs, f, c)
    requires Weathered(windowMs, |c.log|, f, c)
    requires Dry(f) && forall n: nat, req: Request :: e.transport(n, req) == PAGE_200
    ensures var (g, d) := RunFetch(e, f, c);
            Stands(cfg, windowMs, g, d) && Weathered(windowMs, |c.log|, g, d) && IsOk(g)
  {
    WeatheredRun(e, cfg, windowMs, |c.log|, f, c);
    DryRun(e, f, c);
  }

  /** In sunshine every cycle succeeds. */
  lemma {:induction false} SunnyState(p: Policy, cfg: Config, windowMs: int, n: nat)
    requires Follows(p, cfg) && windowMs > cfg.minWindowMs
    ensures var e := Sunshine(p, windowMs);
            && Resting(e, cfg, windowMs, Sequential(e, n)) && |Sequential(e, n).core.log| == n
            && Live(e, n) && (n > 0 ==> SequentialResult(e, n - 1).Ok())
  {
    var e := Sunshine(p, windowMs);
    AreWeather(p, cfg, windowMs);
    if n > 0 {
      var l := Sequential(e, n - 1);
      SunnyState(p, cfg, windowMs, n - 1);
      NextSequential(e, n - 1);
      BeginsWeathered(e, cfg, windowMs, l);
      SunnyCycle(e, cfg, windowMs, Begin(l.core), l.core);
      StillLive(e, n - 1);
    }
  }

  // ---- With every other request limited ----

  /** After n cycles of one limited and one answered request each: no window grew, and no accepted
      range asked for second windowMs - 1. */
  predicate Showered(windowMs: int, n: nat, c: Core) {
    && !c.cancelled && !c.cursor.exhausted && c.spent == 0.0
    && c.metrics.requests == 2 * n && |c.log| == n
    && c.cursor.start == n * windowMs
    && c.cursor.Window() == (if n == 0 then 0 else windowMs)
    && forall i :: 0 <= i < n ==> !AsksFor(c.log[i].req, windowMs - 1)
  }

  /** The range queried after the shrink ends within its slot, short of the end but for the first. */
  lemma ShrunkQuery(p: Policy, cfg: Config, windowMs: int, c: Cursor, n: nat)
    requires Follows(p, cfg) && windowMs > cfg.minWindowMs && n < SLOTS
    requires c.start == n * windowMs && c.Window() == (if n == 0 then 0 else windowMs)
    ensures var shrunk := p.adjust(c, false);
            && shrunk.start == c.start && shrunk.exhausted == c.exhausted
            && !AsksFor(Query(windowMs, shrunk), windowMs - 1)
  {
    var shrunk := p.adjust(c, false);
    assert shrunk == AdjustCursor(cfg, c, false);
    NextMultiple(n, windowMs);
    TimesAtMost(n + 1, SLOTS, windowMs);
    ShrinksBelow(cfg, windowMs);
    if n == 0 {
      EndsBefore(windowMs, windowMs, windowMs);
    } else {
      EndsBefore(windowMs, shrunk.end, (n + 1) * windowMs);
    }
  }

  lemma EndsBefore(windowMs: int, end: int, slotEnd: int)
    requires windowMs > 0 && end <= slotEnd <= SLOTS * windowMs
    requires end < slotEnd || end == windowMs
    ensures Seconds(end) <= windowMs - 1
  {
  }

  /** The second request of a cycle is answered, and the window then not grown. */
  lemma Answered(p: Policy, windowMs: int, n: nat, f: Fetch, c: Core)
    requires f.pc.Loop? && f.saw429 && !c.cancelled && c.metrics.requests == 2 * n + 1
    requires c.spent == 0.0
    ensures var (g, d) := RunFetch(Showers(p, windowMs), f, c);
            && IsOk(g) && !d.cancelled && d.spent == 0.0 && d.metrics.requests == 2 * (n + 1)
            && |d.log| == |c.log| + 1 && d.log[..|c.log|] == c.log
            && d.log[|c.log|].req == Query(windowMs, c.cursor)
            && d.cursor.start == c.cursor.start + windowMs && d.cursor.Window() == windowMs
            && d.cursor.exhausted == c.cursor.exhausted
  {
    var e := Showers(p, windowMs);
    var (st, batch) := ParseSeries(c.adapter, PAGE_200.body);
    PageIsRead(windowMs, c.adapter, c.cursor);
    ServesFromLoop(e, f, c, st, batch.value);
  }

  lemma ShoweredNext(windowMs: int, n: nat, c: Core, req: Request, d: Core)
    requires windowMs > 0 && Showered(windowMs, n, c) && !AsksFor(req, windowMs - 1)
    requires !d.cancelled && !d.cursor.exhausted && d.spent == 0.0
    requires d.metrics.requests == 2 * (n + 1)
    requires |d.log| == |c.log| + 1 && d.log[..|c.log|] == c.log && d.log[|c.log|].req == req
    requires d.cursor.start == c.cursor.start + windowMs && d.cursor.Window() == windowMs
    ensures Showered(windowMs, n + 1, d)
  {
    NextMultiple(n, windowMs);
    forall i | 0 <= i < n + 1
      ensures !AsksFor(d.log[i].req, windowMs - 1)
    {
      if i < n { assert d.log[i] == c.log[i]; }
    }
  }

  /** One cycle: limited, shrunk, answered. */
  lemma ShoweredCycle(p: Policy, cfg: Config, windowMs: int, n: nat, f: Fetch, c: Core)
    requires Follows(p, cfg) && cfg.maxRetries > 0 && windowMs > cfg.minWindowMs && n < SLOTS
    requires Showered(windowMs, n, c) && f.pc.Loop? && !f.saw429 && f.retry == 0
    ensures var (g, d) := RunFetch(Showers(p, windowMs), f, c);
            IsOk(g) && Showered(windowMs, n + 1, d)
  {
    var e := Showers(p, windowMs);
    LimitedOnce(e, f, c);
    var f', c' :|
      && RunFetch(e, f, c) == RunFetch(e, f', c')
      && f'.pc.Loop? && f'.saw429 && c'.cursor == e.policy.adjust(c.cursor, false)
      && c'.log == c.log && c'.cancelled == c.cancelled && c'.spent == c.spent
      && c'.metrics.requests == c.metrics.requests + 1;
    ShrunkQuery(p, cfg, windowMs, c.cursor, n);
    Answered(p, windowMs, n, f', c');
    ShoweredNext(windowMs, n, c, Query(windowMs, c'.cursor), RunFetch(e, f', c').1);
  }

  lemma StillLive(e: Setup, n: nat)
    requires Live(e, n) && SequentialResult(e, n).Ok() && !Sequential(e, n + 1).core.cursor.exhausted
    ensures Live(e, n + 1)
  {
    assert !StopsAfter(e, n);
  }

  lemma ShoweredStart(p: Policy, windowMs: int)
    ensures var e := Showers(p, windowMs);
            Showered(windowMs, 0, Sequential(e, 0).core) && Live(e, 0)
  {
    assert Sequential(Showers(p, windowMs), 0) == InitialLane(Showers(p, windowMs));
  }

  lemma ShoweredOne(p: Policy, cfg: Config, windowMs: int, n: nat)
    requires Follows(p, cfg) && cfg.maxRetries > 0 && windowMs > cfg.minWindowMs && n < SLOTS
    requires var e := Showers(p, windowMs); Showered(windowMs, n, Sequential(e, n).core) && Live(e, n)
    ensures var e := Showers(p, windowMs);
            Showered(windowMs, n + 1, Sequential(e, n + 1).core) && Live(e, n + 1)
  {
    var e := Showers(p, windowMs);
    var c := Sequential(e, n).core;
    NextSequential(e, n);
    ReachesLoop(e, c);
    ShoweredCycle(p, cfg, windowMs, n, Begin(c).(pc := Loop), c);
    StillLive(e, n);
  }

  lemma {:induction false} ShoweredState(p: Policy, cfg: Config, windowMs: int, n: nat)
    requires Follows(p, cfg) && cfg.maxRetries > 0 && windowMs > cfg.minWindowMs && n <= SLOTS
    ensures var e := Showers(p, windowMs);
            Showered(windowMs, n, Sequential(e, n).core) && Live(e, n)
  {
    if n == 0 {
      ShoweredStart(p, windowMs);
    } else {
      ShoweredState(p, cfg, windowMs, n - 1);
      ShoweredOne(p, cfg, windowMs, n - 1);
    }
  }
}
