/**
 DefaultPolicy: window adjustment and jittered exponential backoff, over exact reals.
 */
module DefaultPolicy {
  import opened Wire
  import opened Fetching

  const MAX_DELAY_MS := 32000.0

  datatype Config = Config(
    maxRetries: nat, baseBackoffMs: int,
    growFactor: real, shrinkFactor: real,
    minWindowMs: int, maxWindowMs: int,
    prefetchDepth: nat)

  /** The ranges the policy's JSON loader enforces. */
  predicate Valid(cfg: Config) {
    && cfg.maxRetries <= 100 && cfg.baseBackoffMs > 0
    && cfg.growFactor > 1.0 && 0.0 < cfg.shrinkFactor < 1.0
    && 0 < cfg.minWindowMs <= cfg.maxWindowMs
    && cfg.prefetchDepth <= 4
  }

  function Product(a: real, b: real): real { a * b }

  // ---- Windows ----

  /** A positive window after one success. */
  function Grow(cfg: Config, w: int): int {
    Min(Product(w as real, cfg.growFactor).Floor, cfg.maxWindowMs)
  }

  /** A positive window after rate-limit pressure. */
  function Shrink(cfg: Config, w: int): int {
    Max(Product(w as real, cfg.shrinkFactor).Floor, cfg.minWindowMs)
  }

  function AdjustCursor(cfg: Config, c: Cursor, success: bool): Cursor {
    if !c.HasTimeWindow() || c.Window() <= 0 then c
    else c.(end := c.start + if success then Grow(cfg, c.Window()) else Shrink(cfg, c.Window()))
  }

  /** The cursor object the engine passes by reference. */
  class CursorCell {
    var cursor: Cursor

    constructor (c: Cursor)
      ensures cursor == c
    {
      cursor := c;
    }
  }

  method Adjust(cfg: Config, cell: CursorCell, success: bool)
    modifies cell
    ensures cell.cursor == AdjustCursor(cfg, old(cell.cursor), success)
  {
    if !cell.cursor.HasTimeWindow() { return; }
    var window := cell.cursor.end - cell.cursor.start;
    if window <= 0 { return; }
    var factor := if success then cfg.growFactor else cfg.shrinkFactor;
    var newWindow := Product(window as real, factor).Floor;
    if success {
      newWindow := Min(newWindow, cfg.maxWindowMs);
    } else {
      newWindow := Max(newWindow, cfg.minWindowMs);
    }
    cell.cursor := cell.cursor.(end := cell.cursor.start + newWindow);
  }

  // ---- Backoff ----

  function Power(x: real, k: nat): real { if k == 0 then 1.0 else x * Power(x, k - 1) }

  function MinReal(a: real, b: real): real { if a <= b then a else b }

  /** The delay before jitter: exponential, capped at 32 seconds. */
  function Delay(cfg: Config, retry: nat): real {
    MinReal(Product(cfg.baseBackoffMs as real, Power(2.0, retry)), MAX_DELAY_MS)
  }

  function Jittered(delay: real, jitter: Jitter): int { Product(delay, jitter).Floor }

  function BackoffMs(cfg: Config, retry: nat, jitter: Jitter): int {
    Jittered(Delay(cfg, retry), jitter)
  }

  method Backoff(cfg: Config, retry: nat, jitter: Jitter) returns (ms: int)
    ensures ms == BackoffMs(cfg, retry, jitter)
    ensures var d := Nominal(cfg.baseBackoffMs as real, retry);
            Valid(cfg) ==> 0.75 * d - 1.0 < ms as real <= 1.25 * d
  {
    if Valid(cfg) { BackoffBounds(cfg, retry, jitter); }
    var delay := Product(cfg.baseBackoffMs as real, Power(2.0, retry));
    delay := MinReal(delay, MAX_DELAY_MS);
    delay := Product(delay, jitter);
    ms := delay.Floor;
  }

  /** The policy slot filled with a DefaultPolicy, or with a CostAwarePolicy over it. */
  function AsPolicy(cfg: Config, budget: Option<real>): Policy {
    Policy((c: Cursor, ok: bool) => AdjustCursor(cfg, c, ok),
           (n: nat, j: Jitter) => BackoffMs(cfg, n, j),
           cfg.maxRetries, cfg.prefetchDepth, budget)
  }

  lemma MulMono(a: real, b: real, c: real)
    requires a <= b && c >= 0.0
    ensures a * c <= b * c && Product(a, c) <= Product(b, c)
  {
    MulPositive(b - a, c);
  }

  lemma MulPositive(a: real, b: real)
    requires a >= 0.0 && b >= 0.0
    ensures a * b >= 0.0
  {
  }

  lemma MulSwap(a: real, b: real, c: real)
    ensures (a * b) * c == a * (c * b)
  {
  }

  lemma Spread(d: real, y: real)
    requires 0.75 <= y <= 1.25 && d >= 0.0
    ensures 0.75 * d <= Product(d, y) <= 1.25 * d
  {
    MulPositive(y - 0.75, d);
    MulPositive(1.25 - y, d);
    assert d * y == (y - 0.75) * d + 0.75 * d && d * y == 1.25 * d - (1.25 - y) * d;
  }

  lemma FloorBounds(x: real)
    ensures x - 1.0 < x.Floor as real <= x
    ensures 0.0 <= x <= 40000.0 ==> 0 <= x.Floor <= 40000
  {
  }

  lemma JitterBounds(d: real, j: Jitter)
    requires 0.0 <= d <= MAX_DELAY_MS
    ensures 0.75 * d - 1.0 < Jittered(d, j) as real <= 1.25 * d
    ensures 0 <= Jittered(d, j) <= 40000
  {
    Spread(d, j);
    FloorBounds(Product(d, j));
  }

  lemma BackoffNearDelay(cfg: Config, retry: nat, jitter: Jitter)
    requires Valid(cfg)
    ensures 0 <= BackoffMs(cfg, retry, jitter) <= 40000
    ensures BackoffMs(cfg, retry, jitter) as real <= 1.25 * Delay(cfg, retry)
    ensures BackoffMs(cfg, retry, jitter) as real > 0.75 * Delay(cfg, retry) - 1.0
  {
    DelayBounds(cfg, retry);
    JitterBounds(Delay(cfg, retry), jitter);
  }

  /** 2^n times the base, at most 32 seconds. */
  function Nominal(base: real, n: nat): real {
    var doubled := base * Power(2.0, n);
    if doubled <= 32000.0 then doubled else 32000.0
  }

  lemma DelayIsNominal(cfg: Config, n: nat)
    ensures Delay(cfg, n) == Nominal(cfg.baseBackoffMs as real, n)
  {
  }

  /** The n-th pause doubles the base n times, up to 32 seconds, give or take a quarter; a fraction
      of a millisecond is dropped. */
  lemma BackoffBounds(cfg: Config, n: nat, jitter: Jitter)
    requires Valid(cfg)
    ensures 0 <= BackoffMs(cfg, n, jitter) <= 40000
    ensures BackoffMs(cfg, n, jitter) as real <= 1.25 * Nominal(cfg.baseBackoffMs as real, n)
    ensures BackoffMs(cfg, n, jitter) as real > 0.75 * Nominal(cfg.baseBackoffMs as real, n) - 1.0
  {
    DelayIsNominal(cfg, n);
    BackoffNearDelay(cfg, n, jitter);
  }

  lemma Capped(b: real, p: real)
    requires b >= 0.0 && p >= 0.0
    ensures 0.0 <= MinReal(Product(b, p), MAX_DELAY_MS) <= MAX_DELAY_MS
  {
    MulPositive(b, p);
  }

  lemma DelayBounds(cfg: Config, retry: nat)
    requires Valid(cfg)
    ensures 0.0 <= Delay(cfg, retry) <= MAX_DELAY_MS
  {
    PowerPositive(2.0, retry);
    Capped(cfg.baseBackoffMs as real, Power(2.0, retry));
  }

  lemma {:induction false} PowerPositive(x: real, k: nat)
    requires x > 0.0
    ensures Power(x, k) > 0.0
  {
    if k > 0 { PowerPositive(x, k - 1); }
  }

  // ---- Window dynamics ----

  predicate InRange(cfg: Config, w: int) { cfg.minWindowMs <= w <= cfg.maxWindowMs }

  lemma ScaleUp(w: int, g: real)
    requires w >= 0 && g > 1.0
    ensures w as real <= Product(w as real, g) && w <= Product(w as real, g).Floor
  {
    MulMono(1.0, g, w as real);
  }

  lemma ScaleDown(w: int, s: real)
    requires w >= 0 && 0.0 < s < 1.0
    ensures 0.0 <= Product(w as real, s) <= w as real && 0 <= Product(w as real, s).Floor <= w
  {
    MulMono(s, 1.0, w as real);
    MulPositive(w as real, s);
  }

  /** A window inside [min, max] stays there whatever happens. */
  lemma RangeIsKept(cfg: Config, w: int)
    requires Valid(cfg) && InRange(cfg, w)
    ensures InRange(cfg, Grow(cfg, w)) && w <= Grow(cfg, w)
    ensures InRange(cfg, Shrink(cfg, w)) && Shrink(cfg, w) <= w
  {
    ScaleUp(w, cfg.growFactor);
    ScaleDown(w, cfg.shrinkFactor);
  }

  /** `v` is `w` times `factor`, the fraction dropped, and brought to `limit` where it passes it. */
  predicate Scaled(w: int, factor: real, v: int, limit: int, upwards: bool) {
    && (v == limit || w as real * factor - 1.0 < v as real <= w as real * factor)
    && (if upwards then v <= limit && v as real <= w as real * factor
        else v >= limit && v as real > w as real * factor - 1.0)
  }

  /** A success or a 429 moves the end of a positive window and nothing else; a cursor without one
      stays. */
  lemma AdjustMoves(cfg: Config, c: Cursor, success: bool)
    ensures var d := AdjustCursor(cfg, c, success);
            && d == c.(end := d.end)
            && (c.end <= c.start ==> d == c)
            && (c.end > c.start && success ==>
                  Scaled(c.end - c.start, cfg.growFactor, d.end - d.start, cfg.maxWindowMs, true))
            && (c.end > c.start && !success ==>
                  Scaled(c.end - c.start, cfg.shrinkFactor, d.end - d.start, cfg.minWindowMs, false))
  {
    FloorBounds(Product(c.Window() as real, cfg.growFactor));
    FloorBounds(Product(c.Window() as real, cfg.shrinkFactor));
  }

  function GrowN(cfg: Config, w: int, k: nat): int {
    if k == 0 then w else Grow(cfg, GrowN(cfg, w, k - 1))
  }

  function ShrinkN(cfg: Config, w: int, k: nat): int {
    if k == 0 then w else Shrink(cfg, ShrinkN(cfg, w, k - 1))
  }

  lemma ShrinkOnce(cfg: Config, v: int, b: real, v': int, b': real)
    requires Valid(cfg) && v >= 0 && (v <= cfg.minWindowMs || v as real <= b)
    requires v' == Shrink(cfg, v) && b' == Product(b, cfg.shrinkFactor)
    ensures v' >= 0 && (v' <= cfg.minWindowMs || v' as real <= b')
  {
    ScaleDown(v, cfg.shrinkFactor);
    if v as real <= b { MulMono(v as real, b, cfg.shrinkFactor); }
  }

  /** r multiplied k times by the factor f: r times f^k. */
  function Geometric(r: real, f: real, k: nat): real {
    if k == 0 then r else Product(Geometric(r, f, k - 1), f)
  }

  lemma {:induction false} GeometricIsPower(r: real, f: real, k: nat)
    ensures Geometric(r, f, k) == r * Power(f, k)
  {
    if k > 0 {
      GeometricIsPower(r, f, k - 1);
      MulSwap(r, Power(f, k - 1), f);
    }
  }

  /** `v` is at most the minimum, or at most shrinkFactor^k of `w`. */
  predicate ShrunkBy(cfg: Config, w: int, k: nat, v: int) {
    v <= cfg.minWindowMs || v as real <= Geometric(w as real, cfg.shrinkFactor, k)
  }

  /** k shrinks bring a window down geometrically, to the minimum. */
  lemma {:induction false} ShrinkRate(cfg: Config, w: int, k: nat)
    requires Valid(cfg) && w >= 0
    ensures 0 <= ShrinkN(cfg, w, k) && ShrunkBy(cfg, w, k, ShrinkN(cfg, w, k))
  {
    if k > 0 {
      ShrinkRate(cfg, w, k - 1);
      ShrinkOnce(cfg, ShrinkN(cfg, w, k - 1), Geometric(w as real, cfg.shrinkFactor, k - 1),
                 ShrinkN(cfg, w, k), Geometric(w as real, cfg.shrinkFactor, k));
    }
  }

  /** The window below which a success no longer grows it by a whole millisecond. */
  function Threshold(cfg: Config): real
    requires Valid(cfg)
  {
    1.0 / (cfg.growFactor - 1.0)
  }

  lemma Reciprocal(x: real)
    requires x > 0.0
    ensures Product(1.0 / x, x) == 1.0
  {
  }

  lemma ThresholdInverts(cfg: Config)
    requires Valid(cfg)
    ensures Product(Threshold(cfg), cfg.growFactor - 1.0) == 1.0
  {
    Reciprocal(cfg.growFactor - 1.0);
  }

  /** The window is at the maximum, or ahead of the threshold c by at least b. */
  predicate Ahead(cfg: Config, w: int, c: real, b: real) {
    w == cfg.maxWindowMs || w as real - c >= b
  }

  lemma GrowOnce(cfg: Config, c: real, v: int, b: real, v': int, b': real)
    requires Valid(cfg) && v > 0 && b >= 0.0 && Ahead(cfg, v, c, b)
    requires Product(c, cfg.growFactor - 1.0) == 1.0
    requires v' == Grow(cfg, v) && b' == Product(b, cfg.growFactor)
    ensures v' > 0 && b' >= 0.0 && Ahead(cfg, v', c, b')
  {
    var g := cfg.growFactor;
    assert (v as real - c) * g == v as real * g - c * (g - 1.0) - c;
    MulPositive(b, g);
    ScaleUp(v, g);
    if v as real - c >= b { MulMono(b, v as real - c, g); }
  }

  lemma {:induction false} GrowRateStepwise(cfg: Config, c: real, w: int, r: real, k: nat)
    requires Valid(cfg) && w > 0 && r >= 0.0 && Ahead(cfg, w, c, r)
    requires Product(c, cfg.growFactor - 1.0) == 1.0
    ensures GrowN(cfg, w, k) > 0 && Geometric(r, cfg.growFactor, k) >= 0.0
    ensures Ahead(cfg, GrowN(cfg, w, k), c, Geometric(r, cfg.growFactor, k))
  {
    if k > 0 {
      GrowRateStepwise(cfg, c, w, r, k - 1);
      GrowOnce(cfg, c, GrowN(cfg, w, k - 1), Geometric(r, cfg.growFactor, k - 1),
               GrowN(cfg, w, k), Geometric(r, cfg.growFactor, k));
    }
  }

  /** `v` is the maximum, or growFactor^k times as far above the threshold as `w`. */
  predicate GrownBy(cfg: Config, w: int, k: nat, v: int)
    requires Valid(cfg)
  {
    Ahead(cfg, v, Threshold(cfg), Geometric(w as real - Threshold(cfg), cfg.growFactor, k))
  }

  /** k successes grow a window geometrically away from the threshold, until the maximum. */
  lemma GrowRate(cfg: Config, w: int, k: nat)
    requires Valid(cfg) && w > 0 && w as real >= Threshold(cfg)
    ensures GrownBy(cfg, w, k, GrowN(cfg, w, k))
  {
    ThresholdInverts(cfg);
    GrowRateStepwise(cfg, Threshold(cfg), w, w as real - Threshold(cfg), k);
  }

  /** A success grows the window exactly when it lies at the threshold or above, unless it is
      clamped. */
  lemma GrowthStep(cfg: Config, w: int)
    requires Valid(cfg) && w > 0
    ensures Product(w as real, cfg.growFactor).Floor > w
            <==> Product(w as real, cfg.growFactor - 1.0) >= 1.0
    ensures Product(w as real, cfg.growFactor).Floor >= w
  {
    GrownByProduct(w as real, cfg.growFactor);
    FloorAbove(Product(w as real, cfg.growFactor), w);
    ScaleUp(w, cfg.growFactor);
  }

  lemma GrownByProduct(w: real, g: real)
    ensures Product(w, g) == w + Product(w, g - 1.0)
  {
  }

  lemma FloorAbove(x: real, w: int)
    ensures x.Floor > w <==> x >= w as real + 1.0
  {
  }

  lemma GrowClamps(cfg: Config, w: int)
    requires Valid(cfg) && 0 < w
    ensures w >= cfg.maxWindowMs ==> Grow(cfg, w) == cfg.maxWindowMs
    ensures w < cfg.maxWindowMs && Product(w as real, cfg.growFactor - 1.0) < 1.0 ==> Grow(cfg, w) == w
  {
    GrowthStep(cfg, w);
  }

  lemma GrowsByOne(cfg: Config, w: int, v: int)
    requires Valid(cfg) && 0 < w <= v <= cfg.maxWindowMs
    requires Product(w as real, cfg.growFactor - 1.0) >= 1.0
    ensures Min(v + 1, cfg.maxWindowMs) <= Grow(cfg, v) <= cfg.maxWindowMs
  {
    MulMono(w as real, v as real, cfg.growFactor - 1.0);
    GrowthStep(cfg, v);
  }

  lemma {:induction false} GrowthReaches(cfg: Config, w: int, k: nat)
    requires Valid(cfg) && 0 < w <= cfg.maxWindowMs && Product(w as real, cfg.growFactor - 1.0) >= 1.0
    ensures Min(w + k, cfg.maxWindowMs) <= GrowN(cfg, w, k) <= cfg.maxWindowMs
    decreases k
  {
    if k > 0 {
      GrowthReaches(cfg, w, k - 1);
      GrowsByOne(cfg, w, GrowN(cfg, w, k - 1));
    }
  }

  lemma {:induction false} GrowthStuck(cfg: Config, w: int, k: nat)
    requires Grow(cfg, w) == w
    ensures GrowN(cfg, w, k) == w
  {
    if k > 0 { GrowthStuck(cfg, w, k - 1); }
  }

  /** Successes alone bring a window to the maximum if and only if it is already there, or one
      success would grow it: below 1 / (growFactor - 1) milliseconds it never moves. */
  lemma ReachesMaximum(cfg: Config, w: int)
    requires Valid(cfg) && w > 0
    ensures (exists k: nat :: k > 0 && GrowN(cfg, w, k) == cfg.maxWindowMs)
            <==> w >= cfg.maxWindowMs || Product(w as real, cfg.growFactor - 1.0) >= 1.0
  {
    GrowClamps(cfg, w);
    if w >= cfg.maxWindowMs {
      assert GrowN(cfg, w, 1) == Grow(cfg, GrowN(cfg, w, 0));
    } else if Product(w as real, cfg.growFactor - 1.0) >= 1.0 {
      GrowthReaches(cfg, w, cfg.maxWindowMs - w);
    } else {
      forall k: nat | k > 0
        ensures GrowN(cfg, w, k) != cfg.maxWindowMs
      {
        GrowthStuck(cfg, w, k);
      }
    }
  }
}
