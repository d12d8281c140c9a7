/**
 Exactly when a Datadog stream leaves no hole in the time it has passed, for each policy, so in each
 mode, over every response script and every schedule.
 */
module Coverage {
  import opened Wire
  import opened Fetching
  import opened Prefetch
  import opened Projection
  import opened Refinement
  import opened Realised
  import opened Chain
  import opened DefaultPolicy
  import opened Windows
  import opened Datadog
  import opened Weathers
  import Endings
  import Faultless

  // ---- Why there is none: prefetching without retries ----

  /** Once the range is set, a cycle begins with the grown window or with that shrunk once; after a
      success with the grown one. */
  predicate BeginsPaced(cfg: Config, windowMs: int, fetches: seq<Fetch>, i: int)
    requires 0 <= i < |fetches|
  {
    var w, grown := fetches[i].from.Window(), Grow(cfg, windowMs);
    fetches[i].from.start > 0 ==>
      && (w == grown || w == Shrink(cfg, grown))
      && (i > 0 && IsOk(fetches[i - 1]) ==> w == grown)
      && i > 0
  }

  predicate PacedLane(e: Setup, cfg: Config, windowMs: int, l: Lane) {
    && LaneStands(e, cfg, windowMs, l)
    && (forall i :: 0 <= i < |l.fetches| ==> BeginsPaced(cfg, windowMs, l.fetches, i))
    && (l.fetches != [] ==> Unretried(Last(l)) && Regrown(cfg, windowMs, Last(l), l.core))
    && Slots(windowMs, true, l.core.log)
  }

  lemma PairsBefore(e: Setup, l: Lane, t: Tick)
    requires Endings.Pairs(Play1(e, l, t))
    ensures Endings.Pairs(l)
  {
    var l' := Play1(e, l, t);
    forall i | 0 <= i < |l.fetches| - 2
      ensures IsOk(l.fetches[i]) || IsOk(l.fetches[i + 1])
    {
      assert l'.fetches[i] == l.fetches[i] && l'.fetches[i + 1] == l.fetches[i + 1];
    }
  }

  /** The window the next cycle finds. */
  lemma NextBeginsPaced(e: Setup, cfg: Config, windowMs: int, l: Lane)
    requires DatadogRun(e, cfg, windowMs) && PacedLane(e, cfg, windowMs, l) && Quiet(l)
    requires Endings.Pairs(BeginFetch(l))
    ensures BeginsPaced(cfg, windowMs, BeginFetch(l).fetches, |l.fetches|)
  {
    var n, l' := |l.fetches|, BeginFetch(l);
    if l.core.cursor.start > 0 && n > 0 && !IsOk(Last(l)) {
      var f := Last(l);
      assert f.from.start == l.core.cursor.start && l.core.cursor.Window() == Width(cfg, f);
      assert BeginsPaced(cfg, windowMs, l.fetches, n - 1);
      if n > 1 { assert l'.fetches[n - 2] == l.fetches[n - 2] && l'.fetches[n - 1] == f; }
    }
  }

  lemma PacedBegin(e: Setup, cfg: Config, windowMs: int, l: Lane)
    requires DatadogRun(e, cfg, windowMs) && PacedLane(e, cfg, windowMs, l) && Quiet(l)
    requires Endings.Pairs(BeginFetch(l))
    ensures PacedLane(e, cfg, windowMs, BeginFetch(l))
  {
    var l' := BeginFetch(l);
    StandsTick(e, cfg, windowMs, l, BeginTick);
    NextBeginsPaced(e, cfg, windowMs, l);
    forall i | 0 <= i < |l'.fetches|
      ensures BeginsPaced(cfg, windowMs, l'.fetches, i)
    {
      if i < |l.fetches| { assert BeginsPaced(cfg, windowMs, l.fetches, i); }
    }
  }

  lemma GrownIsWide(cfg: Config, windowMs: int)
    requires Valid(cfg) && windowMs > 0 && Shrink(cfg, Grow(cfg, windowMs)) >= windowMs
    ensures Grow(cfg, windowMs) >= windowMs
  {
    ScaleUp(windowMs, cfg.growFactor);
    ScaleDown(Grow(cfg, windowMs), cfg.shrinkFactor);
  }

  /** Accepting a range at least as wide as the configured window fills its slot. */
  lemma PacedAdvance(e: Setup, cfg: Config, windowMs: int, f: Fetch, c: Core)
    requires DatadogRun(e, cfg, windowMs) && Stands(cfg, windowMs, f, c) && f.pc.Advance?
    requires !f.saw429 && (f.from.start > 0 ==> f.from.Window() >= windowMs)
    requires Slots(windowMs, true, c.log)
    ensures Slots(windowMs, true, AdvanceCursor(e, f, c).1.log)
  {
    var k := |c.log|;
    SlotOf(cfg, windowMs, f, c);
    NextMultiple(k, windowMs);
    SecondsMonotone((k + 1) * windowMs, if k == 0 then windowMs else c.cursor.end);
    SlotAppended(windowMs, true, c.log, Accepted(f.pc.req, f.pc.batch, e.adapter.cost(c.adapter)));
  }

  lemma LogGrowsAtAdvance(e: Setup, f: Fetch, c: Core)
    requires Running(f) && !f.pc.Advance?
    ensures Step(e, f, c).1.log == c.log
  {
    if f.pc.Handle? { HandleEffect(e, f, c); } else { CursorUntouched(e, f, c); }
  }

  lemma PacedFetch(e: Setup, cfg: Config, windowMs: int, l: Lane)
    requires DatadogRun(e, cfg, windowMs) && e.policy.maxRetries == 0
    requires Shrink(cfg, Grow(cfg, windowMs)) >= windowMs
    requires PacedLane(e, cfg, windowMs, l) && !Quiet(l)
    ensures PacedLane(e, cfg, windowMs, StepFetch(e, l))
  {
    var f, c, n := Last(l), l.core, |l.fetches| - 1;
    StandsStep(e, cfg, windowMs, f, c);
    UnretriedStep(e, f, c);
    RegrownStep(e, cfg, windowMs, f, c);
    GrownIsWide(cfg, windowMs);
    assert BeginsPaced(cfg, windowMs, l.fetches, n);
    if f.pc.Advance? { PacedAdvance(e, cfg, windowMs, f, c); } else { LogGrowsAtAdvance(e, f, c); }
    PacedReplaced(cfg, windowMs, l.fetches, Step(e, f, c).0);
  }

  lemma PacedReplaced(cfg: Config, windowMs: int, fetches: seq<Fetch>, g: Fetch)
    requires fetches != [] && g.from == fetches[|fetches| - 1].from
    requires forall i :: 0 <= i < |fetches| ==> BeginsPaced(cfg, windowMs, fetches, i)
    ensures var after := fetches[|fetches| - 1 := g];
            forall i :: 0 <= i < |after| ==> BeginsPaced(cfg, windowMs, after, i)
  {
    var after := fetches[|fetches| - 1 := g];
    forall i | 0 <= i < |after|
      ensures BeginsPaced(cfg, windowMs, after, i)
    {
      assert BeginsPaced(cfg, windowMs, fetches, i);
    }
  }

  lemma {:induction false} PacedAlways(e: Setup, cfg: Config, windowMs: int, ticks: seq<Tick>)
    requires DatadogRun(e, cfg, windowMs) && e.policy.maxRetries == 0
    requires Shrink(cfg, Grow(cfg, windowMs)) >= windowMs && Endings.Pairs(Play(e, ticks))
    ensures PacedLane(e, cfg, windowMs, Play(e, ticks))
  {
    if ticks != [] {
      var l, t := Play(e, ticks[..|ticks| - 1]), ticks[|ticks| - 1];
      PairsBefore(e, l, t);
      PacedAlways(e, cfg, windowMs, ticks[..|ticks| - 1]);
      if t.StepTick? && !Quiet(l) { PacedFetch(e, cfg, windowMs, l); }
      if t.BeginTick? && Quiet(l) { PacedBegin(e, cfg, windowMs, l); }
    }
  }

  // ---- The holes ----

  /** A second that is limited whenever it is asked for is never in an accepted range. */
  lemma {:induction false} NeverAccepted(e: Setup, t: int, ticks: seq<Tick>)
    requires forall n: nat, req: Request :: AsksFor(req, t) ==> e.transport(n, req).status == 429
    ensures var log := Play(e, ticks).core.log;
            forall i :: 0 <= i < |log| ==> !AsksFor(log[i].req, t)
  {
    if ticks != [] {
      var before := ticks[..|ticks| - 1];
      var l := Play(e, before);
      NeverAccepted(e, t, before);
      NextReadsLatest(e, before);
      if ticks[|ticks| - 1].StepTick? && !Quiet(l) { OnlyAdvanceAccepts(e, t, Last(l), l.core); }
    }
  }

  /** The request whose response is accepted is one the transport let through. */
  lemma OnlyAdvanceAccepts(e: Setup, t: int, f: Fetch, c: Core)
    requires Running(f) && ReadsLatest(e, f, c)
    requires forall n: nat, req: Request :: AsksFor(req, t) ==> e.transport(n, req).status == 429
    ensures var c' := Step(e, f, c).1;
            c'.log == c.log || (|c'.log| == |c.log| + 1 && c'.log[..|c.log|] == c.log
                                && !AsksFor(c'.log[|c.log|].req, t))
  {
    if f.pc.Advance? {
      assert Proceeds(e.transport(c.metrics.requests - 1, f.pc.req));
    } else {
      LogGrowsAtAdvance(e, f, c);
    }
  }

  /** A thousand slots, and second windowMs - 1 in none of the ranges. */
  lemma HoleAtTheEnd(windowMs: int, log: seq<Accepted>)
    requires windowMs > 0 && |log| == SLOTS
    requires forall i :: 0 <= i < |log| ==> !AsksFor(log[i].req, windowMs - 1)
    ensures !HoleFree(windowMs, log)
  {
    var t := windowMs - 1;
    assert 0 <= t < Seconds(|log| * windowMs);
    assert !Covered(log, t);
  }

  /** Whether the configured window is safe under this policy. A prefetching engine that may not
      retry stops after two failed cycles, so it never queries with a window shrunk twice. */
  predicate Safe(p: Policy, cfg: Config, windowMs: int) {
    if p.prefetchDepth >= 1 && p.maxRetries == 0
    then Shrink(cfg, Grow(cfg, windowMs)) >= windowMs
    else windowMs <= cfg.minWindowMs
  }

  lemma SafeHasNoHole(e: Setup, cfg: Config, windowMs: int, acts: seq<Action>)
    requires DatadogRun(e, cfg, windowMs) && Safe(e.policy, cfg, windowMs)
    ensures HoleFree(windowMs, Exec(e, acts).lane.core.log)
  {
    ExecIsPlay(e, acts);
    if windowMs <= cfg.minWindowMs {
      SlotsAlways(e, cfg, windowMs, Ticks(e, acts));
    } else {
      Endings.TwoFailuresStop(e, acts);
      PacedAlways(e, cfg, windowMs, Ticks(e, acts));
    }
    WideSlotsCover(windowMs, Exec(e, acts).lane.core.log);
  }

  lemma StormHole(p: Policy, cfg: Config, windowMs: int, n: nat) returns (acts: seq<Action>)
    requires Follows(p, cfg) && windowMs > cfg.minWindowMs
    requires |Sequential(Storm(p, windowMs), n).core.log| == SLOTS
    requires p.prefetchDepth >= 1 ==> n > 0 && Live(Storm(p, windowMs), n - 1)
    ensures !HoleFree(windowMs, Exec(Storm(p, windowMs), acts).lane.core.log)
  {
    var e := Storm(p, windowMs);
    acts := Reaches(e, n);
    ExecIsPlay(e, acts);
    NeverAccepted(e, windowMs - 1, Ticks(e, acts));
    HoleAtTheEnd(windowMs, Exec(e, acts).lane.core.log);
  }

  lemma UnsafePacedHole(p: Policy, cfg: Config, windowMs: int) returns (acts: seq<Action>)
    requires Follows(p, cfg) && windowMs > 0 && p.maxRetries == 0
    requires Shrink(cfg, Grow(cfg, windowMs)) < windowMs
    ensures !HoleFree(windowMs, Exec(Storm(p, windowMs), acts).lane.core.log)
  {
    var e := Storm(p, windowMs);
    AreWeather(p, cfg, windowMs);
    assert Sequential(e, 0) == InitialLane(e);
    var n := PacedReach(e, cfg, windowMs, 0);
    acts := StormHole(p, cfg, windowMs, n);
  }

  lemma UnsafeSequentialHole(p: Policy, cfg: Config, windowMs: int) returns (acts: seq<Action>)
    requires Follows(p, cfg) && p.prefetchDepth == 0 && windowMs > cfg.minWindowMs
    ensures !HoleFree(windowMs, Exec(Storm(p, windowMs), acts).lane.core.log)
  {
    AreWeather(p, cfg, windowMs);
    var n := StormReaches(Storm(p, windowMs), cfg, windowMs);
    acts := StormHole(p, cfg, windowMs, n);
  }

  lemma UnsafeRetryHole(p: Policy, cfg: Config, windowMs: int) returns (acts: seq<Action>)
    requires Follows(p, cfg) && p.maxRetries > 0 && windowMs > cfg.minWindowMs
    ensures !HoleFree(windowMs, Exec(Showers(p, windowMs), acts).lane.core.log)
  {
    var e := Showers(p, windowMs);
    ShoweredState(p, cfg, windowMs, SLOTS);
    ShoweredState(p, cfg, windowMs, SLOTS - 1);
    acts := Reaches(e, SLOTS);
    HoleAtTheEnd(windowMs, Exec(e, acts).lane.core.log);
  }

  /** An unsafe window has a hole on some engine with this policy. */
  lemma UnsafeHasHole(p: Policy, cfg: Config, windowMs: int)
    returns (e: Setup, acts: seq<Action>)
    requires Follows(p, cfg) && windowMs > 0 && !Safe(p, cfg, windowMs)
    ensures e.policy == p && DatadogRun(e, cfg, windowMs)
    ensures !HoleFree(windowMs, Exec(e, acts).lane.core.log)
  {
    if p.prefetchDepth == 0 {
      e := Storm(p, windowMs);
      acts := UnsafeSequentialHole(p, cfg, windowMs);
    } else if p.maxRetries == 0 {
      e := Storm(p, windowMs);
      acts := UnsafePacedHole(p, cfg, windowMs);
    } else {
      e := Showers(p, windowMs);
      acts := UnsafeRetryHole(p, cfg, windowMs);
    }
  }

  /** For each policy: whatever the server answers and under every schedule, 429s included, the
      accepted ranges leave no hole in the time the cursor has passed, if and only if the configured
      window is safe: at most min_window_ms, or, for a prefetching engine without retries, at most
      what one growth and one shrink make of it. */
  lemma NoHoleIff(p: Policy, cfg: Config, windowMs: int)
    requires Follows(p, cfg) && windowMs > 0
    ensures (forall e: Setup, acts: seq<Action> ::
               e.policy == p && DatadogRun(e, cfg, windowMs)
               ==> HoleFree(windowMs, Exec(e, acts).lane.core.log))
       <==> Safe(p, cfg, windowMs)
  {
    if Safe(p, cfg, windowMs) {
      forall e: Setup, acts: seq<Action> | e.policy == p && DatadogRun(e, cfg, windowMs)
        ensures HoleFree(windowMs, Exec(e, acts).lane.core.log)
      {
        SafeHasNoHole(e, cfg, windowMs, acts);
      }
    } else {
      var e, acts := UnsafeHasHole(p, cfg, windowMs);
    }
  }

  /** One 429 is enough for the default policy, which prefetches: some schedule of that engine reaches
      the hole of Faultless.HoleAfter429. */
  lemma HoleIsReached() returns (acts: seq<Action>)
    ensures Enabled(Faultless.OneLimited())
    ensures !HoleFree(Faultless.HOUR_MS, Exec(Faultless.OneLimited(), acts).lane.core.log)
  {
    var e := Faultless.OneLimited();
    Faultless.FirstHour();
    assert !StopsAfter(e, 0);
    acts := Reaches(e, 2);
    var log := Exec(e, acts).lane.core.log;
    Faultless.HoleAfter429(6300);
    assert forall i :: !Covers(log, i, 6300);
    assert !Covered(log, 6300) && 6300 < Seconds(|log| * Faultless.HOUR_MS);
  }

  // ---- Without a 429 ----

  lemma CalmMisses(cfg: Config, windowMs: int, log: seq<Accepted>, i: nat)
    requires Valid(cfg) && windowMs > cfg.maxWindowMs && CalmLog(cfg, windowMs, log)
    requires i < |log| <= SLOTS
    ensures !AsksFor(log[i].req, windowMs - 1)
  {
    NextMultiple(i, windowMs);
    TimesAtMost(i + 1, SLOTS, windowMs);
    EndsBefore(windowMs, CalmEnd(cfg, windowMs, i), (i + 1) * windowMs);
  }

  lemma SunnyHole(p: Policy, cfg: Config, windowMs: int) returns (acts: seq<Action>)
    requires Follows(p, cfg) && windowMs > cfg.maxWindowMs
    ensures !HoleFree(windowMs, Exec(Sunshine(p, windowMs), acts).lane.core.log)
  {
    var e := Sunshine(p, windowMs);
    AreWeather(p, cfg, windowMs);
    SunnyState(p, cfg, windowMs, SLOTS);
    SunnyState(p, cfg, windowMs, SLOTS - 1);
    acts := Reaches(e, SLOTS);
    var log := Exec(e, acts).lane.core.log;
    ExecIsPlay(e, acts);
    CalmAlways(e, cfg, windowMs, Ticks(e, acts));
    forall i | 0 <= i < |log|
      ensures !AsksFor(log[i].req, windowMs - 1)
    {
      CalmMisses(cfg, windowMs, log, i);
    }
    HoleAtTheEnd(windowMs, log);
  }

  /** For each policy: for every script without a 429 and under every schedule, likewise, if and only
      if the configured window is at most max_window_ms. */
  lemma CalmNoHoleIff(p: Policy, cfg: Config, windowMs: int)
    requires Follows(p, cfg) && windowMs > 0
    ensures (forall e: Setup, acts: seq<Action> ::
               e.policy == p && DatadogRun(e, cfg, windowMs) && NeverLimited(e)
               ==> HoleFree(windowMs, Exec(e, acts).lane.core.log))
       <==> windowMs <= cfg.maxWindowMs
  {
    if windowMs <= cfg.maxWindowMs {
      forall e: Setup, acts: seq<Action> |
        e.policy == p && DatadogRun(e, cfg, windowMs) && NeverLimited(e)
        ensures HoleFree(windowMs, Exec(e, acts).lane.core.log)
      {
        ExecIsPlay(e, acts);
        NoHoleWithout429(e, cfg, windowMs, Ticks(e, acts));
      }
    } else {
      var e := Sunshine(p, windowMs);
      AreWeather(p, cfg, windowMs);
      var acts := SunnyHole(p, cfg, windowMs);
    }
  }
}
