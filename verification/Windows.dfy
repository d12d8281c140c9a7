/**
 Window dynamics and sleeping over whole runs of an engine driven by DefaultPolicy.
 */
module Windows {
  import opened Wire
  import opened Decimal
  import opened Fetching
  import opened DefaultPolicy

  /** The policy slot behaves as this configuration of DefaultPolicy. */
  ghost predicate Follows(p: Policy, cfg: Config) {
    && Valid(cfg) && p.maxRetries == cfg.maxRetries
    && (forall c: Cursor, ok: bool :: p.adjust(c, ok) == AdjustCursor(cfg, c, ok))
    && (forall n: nat, j: Jitter :: p.backoff(n, j) == BackoffMs(cfg, n, j))
  }

  lemma AsPolicyFollows(cfg: Config, budget: Option<real>)
    requires Valid(cfg)
    ensures Follows(AsPolicy(cfg, budget), cfg)
    ensures var p := AsPolicy(cfg, budget); p.budget == budget && p.prefetchDepth == cfg.prefetchDepth
  {
  }

  // ---- One window move per fetch cycle ----

  /** The adapter passes the time window through to the next cursor. */
  ghost predicate Carries(a: Adapter) {
    forall st: AdapterState, c: Cursor :: a.next(st, c).start == c.start && a.next(st, c).end == c.end
  }

  predicate Accepting(f: Fetch) { f.pc.Charge? || f.pc.Finish? || IsOk(f) }

  /** The window a fetch cycle leaves: one shrink if it saw a 429, else one grow if its response
      was accepted, else the window it found. */
  function WindowAfter(cfg: Config, f: Fetch): int {
    var w := f.from.Window();
    if f.saw429 then Shrink(cfg, w) else if Accepting(f) then Grow(cfg, w) else w
  }

  predicate WindowTracked(cfg: Config, f: Fetch, c: Core) {
    f.from.Window() > 0 ==>
      c.cursor.start == f.from.start && c.cursor.Window() == WindowAfter(cfg, f)
  }

  lemma StillPositive(cfg: Config, w: int)
    requires Valid(cfg) && w > 0
    ensures Grow(cfg, w) > 0 && Shrink(cfg, w) > 0
  {
    ScaleUp(w, cfg.growFactor);
  }

  lemma HandleTracked(e: Setup, cfg: Config, f: Fetch, c: Core)
    requires Follows(e.policy, cfg) && f.pc.Handle? && WindowTracked(cfg, f, c)
    ensures var (f', c') := HandleError(e, f, c); WindowTracked(cfg, f', c')
  {
    assert e.policy.adjust(c.cursor, false) == AdjustCursor(cfg, c.cursor, false);
  }

  lemma AdvanceTracked(e: Setup, cfg: Config, f: Fetch, c: Core)
    requires Follows(e.policy, cfg) && Carries(e.adapter)
    requires f.pc.Advance? && WindowTracked(cfg, f, c)
    ensures var (f', c') := AdvanceCursor(e, f, c); WindowTracked(cfg, f', c')
  {
    var next := e.adapter.next(c.adapter, c.cursor);
    assert next.start == c.cursor.start && next.end == c.cursor.end;
    assert e.policy.adjust(next, true) == AdjustCursor(cfg, next, true);
  }

  lemma StepTracked(e: Setup, cfg: Config, f: Fetch, c: Core)
    requires Follows(e.policy, cfg) && Carries(e.adapter)
    requires Running(f) && WindowTracked(cfg, f, c)
    ensures var (f', c') := Step(e, f, c); WindowTracked(cfg, f', c')
  {
    match f.pc
    case Handle(_, _) => HandleTracked(e, cfg, f, c);
    case Advance(_, _) => AdvanceTracked(e, cfg, f, c);
    case _ =>
  }

  /** Each fetch cycle starts from the window the one before it left. */
  predicate LaneWindows(e: Setup, cfg: Config, l: Lane) {
    && (l.fetches == [] ==> l.core.cursor == e.initial)
    && (l.fetches != [] ==>
          && l.fetches[0].from == e.initial
          && Last(l).from.Window() > 0
          && WindowTracked(cfg, Last(l), l.core))
    && forall i :: 0 <= i < |l.fetches| - 1 ==>
         && l.fetches[i].from.Window() > 0
         && l.fetches[i + 1].from.Window() == WindowAfter(cfg, l.fetches[i])
  }

  lemma BeginWindows(e: Setup, cfg: Config, l: Lane)
    requires Follows(e.policy, cfg) && e.initial.Window() > 0 && LaneWindows(e, cfg, l) && Quiet(l)
    ensures LaneWindows(e, cfg, BeginFetch(l))
  {
    if l.fetches != [] { StillPositive(cfg, Last(l).from.Window()); }
  }

  lemma StepWindows(e: Setup, cfg: Config, l: Lane)
    requires Follows(e.policy, cfg) && Carries(e.adapter)
    requires LaneWindows(e, cfg, l) && !Quiet(l)
    ensures LaneWindows(e, cfg, StepFetch(e, l))
  {
    StepTracked(e, cfg, Last(l), l.core);
  }

  /** In every run: exactly one shrink, one grow or nothing per fetch cycle. */
  lemma {:induction false} OneMovePerFetch(e: Setup, cfg: Config, ticks: seq<Tick>)
    requires Follows(e.policy, cfg) && Carries(e.adapter) && e.initial.Window() > 0
    ensures LaneWindows(e, cfg, Play(e, ticks))
  {
    if ticks != [] {
      var l, t := Play(e, ticks[..|ticks| - 1]), ticks[|ticks| - 1];
      OneMovePerFetch(e, cfg, ticks[..|ticks| - 1]);
      if t.StepTick? && !Quiet(l) { StepWindows(e, cfg, l); }
      if t.BeginTick? && Quiet(l) { BeginWindows(e, cfg, l); }
    }
  }

  lemma {:induction false} FoundInRange(e: Setup, cfg: Config, l: Lane, i: nat)
    requires Valid(cfg) && LaneWindows(e, cfg, l) && InRange(cfg, e.initial.Window())
    requires i < |l.fetches|
    ensures InRange(cfg, l.fetches[i].from.Window())
  {
    if i > 0 {
      FoundInRange(e, cfg, l, i - 1);
      RangeIsKept(cfg, l.fetches[i - 1].from.Window());
    }
  }

  /** A window that starts inside [min_window_ms, max_window_ms] never leaves it. */
  lemma WindowStaysInRange(e: Setup, cfg: Config, ticks: seq<Tick>)
    requires Follows(e.policy, cfg) && Carries(e.adapter)
    requires InRange(cfg, e.initial.Window())
    ensures InRange(cfg, Play(e, ticks).core.cursor.Window())
  {
    var l := Play(e, ticks);
    OneMovePerFetch(e, cfg, ticks);
    if l.fetches != [] {
      FoundInRange(e, cfg, l, |l.fetches| - 1);
      RangeIsKept(cfg, Last(l).from.Window());
    }
  }

  lemma {:induction false} StormWindows(e: Setup, cfg: Config, l: Lane, k: nat)
    requires LaneWindows(e, cfg, l) && k < |l.fetches|
    requires forall i :: 0 <= i < k ==> l.fetches[i].saw429
    ensures l.fetches[k].from.Window() == ShrinkN(cfg, e.initial.Window(), k)
  {
    if k > 0 { StormWindows(e, cfg, l, k - 1); }
  }

  /** After k cycles that all met rate limiting, the window is down to the minimum or to
      shrinkFactor^k of where it started. */
  lemma StormConverges(e: Setup, cfg: Config, ticks: seq<Tick>, k: nat)
    requires Follows(e.policy, cfg) && Carries(e.adapter) && e.initial.Window() > 0
    requires k < |Play(e, ticks).fetches|
    requires forall i :: 0 <= i < k ==> Play(e, ticks).fetches[i].saw429
    ensures ShrunkBy(cfg, e.initial.Window(), k, Play(e, ticks).fetches[k].from.Window())
  {
    OneMovePerFetch(e, cfg, ticks);
    StormWindows(e, cfg, Play(e, ticks), k);
    ShrinkRate(cfg, e.initial.Window(), k);
  }

  lemma {:induction false} CalmWindows(e: Setup, cfg: Config, l: Lane, k: nat)
    requires LaneWindows(e, cfg, l) && k < |l.fetches|
    requires forall i :: 0 <= i < k ==> !l.fetches[i].saw429 && IsOk(l.fetches[i])
    ensures l.fetches[k].from.Window() == GrowN(cfg, e.initial.Window(), k)
  {
    if k > 0 { CalmWindows(e, cfg, l, k - 1); }
  }

  /** After k undisturbed successes the window is at the maximum or has grown geometrically. */
  lemma CalmRecovers(e: Setup, cfg: Config, ticks: seq<Tick>, k: nat)
    requires Follows(e.policy, cfg) && Carries(e.adapter) && e.initial.Window() > 0
    requires e.initial.Window() as real >= Threshold(cfg)
    requires k < |Play(e, ticks).fetches|
    requires var fs := Play(e, ticks).fetches;
             forall i :: 0 <= i < k ==> !fs[i].saw429 && IsOk(fs[i])
    ensures GrownBy(cfg, e.initial.Window(), k, Play(e, ticks).fetches[k].from.Window())
  {
    OneMovePerFetch(e, cfg, ticks);
    CalmWindows(e, cfg, Play(e, ticks), k);
    GrowRate(cfg, e.initial.Window(), k);
  }

  // ---- Sleeping ----

  /** The i-th pause of a cycle follows Retry-After, or is the i-th backoff. */
  ghost predicate NapOk(cfg: Config, i: nat, nap: Nap) {
    if nap.honoured then 0 < nap.ms <= MAX_RETRY_AFTER_SECS * MS_PER_SECOND
    else exists j: Jitter :: nap.ms == BackoffMs(cfg, i, j)
  }

  ghost predicate NapsOk(e: Setup, cfg: Config, f: Fetch) {
    && |f.naps| == f.retry <= cfg.maxRetries
    && forall i :: 0 <= i < |f.naps| ==> NapOk(cfg, i, f.naps[i])
  }

  lemma NapsHandle(e: Setup, cfg: Config, f: Fetch, c: Core)
    requires Follows(e.policy, cfg) && f.pc.Handle? && NapsOk(e, cfg, f)
    ensures NapsOk(e, cfg, HandleError(e, f, c).0)
  {
    var j := e.jitter(c.metrics.requests);
    assert e.policy.backoff(f.retry, j) == BackoffMs(cfg, f.retry, j);
  }

  lemma NapsElsewhere(e: Setup, f: Fetch, c: Core)
    requires Running(f) && !f.pc.Handle?
    ensures var g := Step(e, f, c).0; g.naps == f.naps && g.retry == f.retry
  {
  }

  lemma NapsStep(e: Setup, cfg: Config, f: Fetch, c: Core)
    requires Follows(e.policy, cfg) && Running(f) && NapsOk(e, cfg, f)
    ensures NapsOk(e, cfg, Step(e, f, c).0)
  {
    if f.pc.Handle? { NapsHandle(e, cfg, f, c); } else { NapsElsewhere(e, f, c); }
  }

  lemma {:induction false} NapsHold(e: Setup, cfg: Config, ticks: seq<Tick>)
    requires Follows(e.policy, cfg)
    ensures forall i :: 0 <= i < |Play(e, ticks).fetches| ==> NapsOk(e, cfg, Play(e, ticks).fetches[i])
  {
    if ticks != [] {
      var l, t := Play(e, ticks[..|ticks| - 1]), ticks[|ticks| - 1];
      NapsHold(e, cfg, ticks[..|ticks| - 1]);
      if t.StepTick? && !Quiet(l) { NapsStep(e, cfg, Last(l), l.core); }
    }
  }

  function Slept(naps: seq<Nap>): int {
    if naps == [] then 0 else Slept(naps[..|naps| - 1]) + naps[|naps| - 1].ms
  }

  lemma {:induction false} SleptAtMost(cfg: Config, naps: seq<Nap>)
    requires Valid(cfg) && forall i :: 0 <= i < |naps| ==> NapOk(cfg, i, naps[i])
    ensures 0 <= Slept(naps) <= |naps| * 3600000
  {
    if naps != [] {
      var i := |naps| - 1;
      SleptAtMost(cfg, naps[..i]);
      if !naps[i].honoured {
        var j: Jitter :| naps[i].ms == BackoffMs(cfg, i, j);
        BackoffBounds(cfg, i, j);
      }
    }
  }

  function NominalSum(base: real, n: nat): real {
    if n == 0 then 0.0 else NominalSum(base, n - 1) + Nominal(base, n - 1)
  }

  /** `slept` is n pauses that come to `sum`, give or take a quarter and the fractions dropped. */
  predicate Near(slept: real, sum: real, n: nat) {
    0.75 * sum - n as real <= slept <= 1.25 * sum
  }

  lemma NearAdds(slept: real, sum: real, n: nat, ms: real, d: real)
    requires Near(slept, sum, n) && 0.75 * d - 1.0 < ms <= 1.25 * d
    ensures Near(slept + ms, sum + d, n + 1)
  {
  }

  lemma {:induction false} BackoffSum(cfg: Config, naps: seq<Nap>)
    requires Valid(cfg)
    requires forall i :: 0 <= i < |naps| ==> NapOk(cfg, i, naps[i]) && !naps[i].honoured
    ensures Near(Slept(naps) as real, NominalSum(cfg.baseBackoffMs as real, |naps|), |naps|)
  {
    if naps != [] {
      var i := |naps| - 1;
      var base := cfg.baseBackoffMs as real;
      BackoffSum(cfg, naps[..i]);
      var j: Jitter :| naps[i].ms == BackoffMs(cfg, i, j);
      BackoffBounds(cfg, i, j);
      NearAdds(Slept(naps[..i]) as real, NominalSum(base, i), i, naps[i].ms as real, Nominal(base, i));
    }
  }

  lemma DoublingStep(b: real, p: real)
    ensures b * (2.0 * p - 1.0) == b * (p - 1.0) + b * p
  {
  }

  /** That sum is base(2^n - 1) while the cap is not reached, and never more; nor is it more than 32
      seconds for each. */
  lemma {:induction false} NominalSumIs(base: real, n: nat)
    requires base >= 0.0
    ensures NominalSum(base, n) <= base * (Power(2.0, n) - 1.0)
    ensures NominalSum(base, n) <= 32000.0 * n as real
    ensures n > 0 && base * Power(2.0, n - 1) <= 32000.0
            ==> NominalSum(base, n) == base * (Power(2.0, n) - 1.0)
  {
    if n > 0 {
      NominalSumIs(base, n - 1);
      DoublingStep(base, Power(2.0, n - 1));
      if n > 1 { HalfIsLess(base, n - 1); }
    }
  }

  lemma HalfIsLess(base: real, n: nat)
    requires base >= 0.0 && n > 0
    ensures base * Power(2.0, n - 1) <= base * Power(2.0, n)
  {
    PowerPositive(2.0, n - 1);
    MulMono(Power(2.0, n - 1), Power(2.0, n), base);
  }

  /** At most an hour per pause; without Retry-After, the doubling pauses summed, give or take a
      quarter and the fractions dropped. */
  predicate SleepsWithin(cfg: Config, naps: seq<Nap>) {
    && 0 <= Slept(naps) <= |naps| * 3600000
    && ((forall i :: 0 <= i < |naps| ==> !naps[i].honoured) ==>
          Near(Slept(naps) as real, NominalSum(cfg.baseBackoffMs as real, |naps|), |naps|))
  }

  lemma NapsSleepWithin(cfg: Config, naps: seq<Nap>)
    requires Valid(cfg) && forall i :: 0 <= i < |naps| ==> NapOk(cfg, i, naps[i])
    ensures SleepsWithin(cfg, naps)
  {
    SleptAtMost(cfg, naps);
    if forall i :: 0 <= i < |naps| ==> !naps[i].honoured { BackoffSum(cfg, naps); }
  }

  /** At most 5/4 of base(2^n - 1) ms, and of 32 seconds per pause. */
  predicate SleepsUnder(cfg: Config, naps: seq<Nap>) {
    && Slept(naps) as real <= 1.25 * (cfg.baseBackoffMs as real * (Power(2.0, |naps|) - 1.0))
    && Slept(naps) as real <= 1.25 * (32000.0 * |naps| as real)
  }

  lemma SleepCaps(cfg: Config, naps: seq<Nap>)
    requires Valid(cfg) && SleepsWithin(cfg, naps)
    requires forall i :: 0 <= i < |naps| ==> !naps[i].honoured
    ensures SleepsUnder(cfg, naps)
  {
    NominalSumIs(cfg.baseBackoffMs as real, |naps|);
  }

  /** A fetch cycle pauses at most max_retries times, and within those bounds. */
  lemma SleepBound(e: Setup, cfg: Config, ticks: seq<Tick>, k: nat)
    requires Follows(e.policy, cfg) && k < |Play(e, ticks).fetches|
    ensures var naps := Play(e, ticks).fetches[k].naps;
            && |naps| <= cfg.maxRetries && SleepsWithin(cfg, naps)
            && ((forall i :: 0 <= i < |naps| ==> !naps[i].honoured) ==> SleepsUnder(cfg, naps))
  {
    var naps := Play(e, ticks).fetches[k].naps;
    NapsHold(e, cfg, ticks);
    NapsSleepWithin(cfg, naps);
    if forall i :: 0 <= i < |naps| ==> !naps[i].honoured { SleepCaps(cfg, naps); }
  }

  /** A retry answered with a Retry-After of n seconds, 0 < n <= 3600, sleeps exactly that; any
      other number sleeps a backoff. */
  lemma RetryAfterIsHonoured(e: Setup, f: Fetch, c: Core, resp: Response, n: int)
    requires IsRetryable(resp) && f.retry < e.policy.maxRetries
    requires INT_MIN <= n <= INT_MAX && resp.retryAfter == ToText(n)
    ensures HandleRetryable(e, f, c, resp).0.naps
         == f.naps + [if 0 < n <= 3600 then Nap(n * 1000, true) else BackoffNap(e, f, c)]
  {
    RetryAfterReads(resp, n);
  }

  // ---- The gauge ----

  lemma GaugeStep(e: Setup, f: Fetch, c: Core)
    requires Running(f)
    ensures var (g, d) := Step(e, f, c);
            g.pc.Returned? && g.pc.result.Ok() ==>
              f.pc.Finish? && d.metrics.windowMs == d.cursor.end - d.cursor.start
  {
    if f.pc.Handle? { HandleEffect(e, f, c); }
  }

  /** On every run: a fetch cycle that ended OK leaves the window of the cursor in the gauge. */
  lemma {:induction false} GaugeShowsWindow(e: Setup, ticks: seq<Tick>)
    ensures var l := Play(e, ticks);
            l.fetches != [] && IsOk(Last(l)) ==>
              l.core.metrics.windowMs == l.core.cursor.end - l.core.cursor.start
  {
    if ticks != [] {
      var l, t := Play(e, ticks[..|ticks| - 1]), ticks[|ticks| - 1];
      GaugeShowsWindow(e, ticks[..|ticks| - 1]);
      if t.StepTick? && !Quiet(l) { GaugeStep(e, Last(l), l.core); }
    }
  }
}
