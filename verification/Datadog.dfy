/**
 DatadogMetricsAdapter: the cursor moves by a fixed window while the policy resizes the end of
 the range that is queried.
 */
module Datadog {
  import opened Wire
  import opened Fetching
  import opened Chain
  import opened DefaultPolicy
  import opened Windows
  import opened GenericRest
  import opened Prefetch
  import opened Projection
  import opened Accounting
  import opened Delivery
  import opened Answers

  /** C++ integer division truncates toward zero. */
  function Seconds(ms: int): int { if ms >= 0 then ms / MS_PER_SECOND else -((-ms) / MS_PER_SECOND) }

  function Query(windowMs: int, c: Cursor): Request {
    if c.start == 0 && c.end == 0 then Range(Seconds(0), Seconds(windowMs))
    else Range(Seconds(c.start), Seconds(c.end))
  }

  /** The points of one series; none when it has no point list. */
  function Points(s: Json): seq<Json> {
    match s.Field("pointlist")
    case Some(Arr(points)) => points
    case _ => []
  }

  function Flatten(series: seq<Json>): seq<Json> {
    if series == [] then []
    else Flatten(series[..|series| - 1]) + Points(series[|series| - 1])
  }

  function ParseSeries(st: AdapterState, body: Option<Json>): (AdapterState, Option<Batch>) {
    match body
    case None => (st, None)
    case Some(doc) =>
      match doc.Field("series")
      case Some(Arr(series)) => (AdapterState(doc, 0), Some(Flatten(series)))
      case _ => (AdapterState(doc, 0), None)
  }

  /** The next range starts one configured window later, whatever the policy did to the end. */
  function NextRange(windowMs: int, st: AdapterState, current: Cursor): Cursor {
    var series := st.lastParsed.Field("series");
    current.(start := current.start + windowMs,
             end := current.start + windowMs + windowMs,
             exhausted := current.exhausted || (series.Some? && IsEmpty(series.value)))
  }

  function AsAdapter(windowMs: int): Adapter {
    Adapter((c: Cursor) => Query(windowMs, c),
            ParseSeries,
            (st: AdapterState, c: Cursor) => NextRange(windowMs, st, c),
            (st: AdapterState) => None)
  }

  /** A page with one point. */
  const METRICS_PAGE := Obj(map["series" := Arr([Obj(map["pointlist" := Arr([Num(1)])])])])

  class DatadogMetricsAdapter {
    const windowMs: int
    var lastParsed: Json

    function State(): AdapterState
      reads this
    {
      AdapterState(lastParsed, 0)
    }

    constructor (windowMs: int)
      ensures this.windowMs == windowMs && State() == FRESH_ADAPTER
    {
      this.windowMs := windowMs;
      lastParsed := Null;
    }

    /** False leaves the caller's batch alone; the parsed document is kept even so. */
    method ParseResponse(body: Option<Json>, out: Batch) returns (ok: bool, batch: Batch)
      modifies this
      ensures (State(), if ok then Some(batch) else None) == ParseSeries(old(State()), body)
      ensures !ok ==> batch == out
      ensures ok <==> body.Some? && HoldsAList(body.value, "series")
      ensures forall series, parts ::
                body.Some? && HoldsList(body.value, "series", series) && PointsOf(series, parts)
                ==> batch == Joined(parts)
    {
      forall series, parts |
        body.Some? && HoldsList(body.value, "series", series) && PointsOf(series, parts)
        ensures Flatten(series) == Joined(parts)
      {
        FlattenJoins(series, parts);
      }
      ok, batch := false, out;
      if body.None? { return; }
      lastParsed := body.value;
      var field := lastParsed.Field("series");
      if field.None? || !field.value.Arr? { return; }
      batch := FlattenSeries(field.value.items);
      ok := true;
    }

    method NextCursor(current: Cursor) returns (next: Cursor)
      ensures next == NextRange(windowMs, State(), current)
      ensures HoldsAList(lastParsed, "series") ==>
                (next.exhausted <==> current.exhausted || NoSeries(lastParsed))
    {
      next := current;
      var currentStart := current.start;
      if currentStart == 0 && current.end == 0 { currentStart := 0; }
      next := next.(start := currentStart + windowMs);
      next := next.(end := next.start + windowMs);
      var series := lastParsed.Field("series");
      if series.Some? && IsEmpty(series.value) { next := next.(exhausted := true); }
    }
  }

  /** All data points of all series, in order. */
  method FlattenSeries(series: seq<Json>) returns (records: seq<Json>)
    ensures records == Flatten(series)
  {
    records := [];
    for i := 0 to |series|
      invariant records == Flatten(series[..i])
    {
      assert series[..i + 1][..i] == series[..i];
      var list := series[i].Field("pointlist");
      if list.Some? && list.value.Arr? {
        var points := list.value.items;
        for j := 0 to |points|
          invariant records == Flatten(series[..i]) + points[..j]
        {
          records := records + [points[j]];
          assert points[..j + 1] == points[..j] + [points[j]];
        }
        assert points[..|points|] == points;
      }
    }
    assert series[..|series|] == series;
  }

  // ---- What a page is ----

  function Joined(parts: seq<seq<Json>>): seq<Json> {
    if parts == [] then [] else Joined(parts[..|parts| - 1]) + parts[|parts| - 1]
  }

  /** The point lists of these series; an empty one where there is none. */
  predicate PointsOf(series: seq<Json>, parts: seq<seq<Json>>) {
    && |parts| == |series|
    && forall i :: 0 <= i < |series| ==>
         if HoldsAList(series[i], "pointlist") then HoldsList(series[i], "pointlist", parts[i])
         else parts[i] == []
  }

  lemma {:induction false} FlattenJoins(series: seq<Json>, parts: seq<seq<Json>>)
    requires PointsOf(series, parts)
    ensures Flatten(series) == Joined(parts)
  {
    if series != [] {
      var n := |series| - 1;
      FlattenJoins(series[..n], parts[..n]);
      assert Points(series[n]) == parts[n];
    }
  }

  /** A page is the points of all its series, series by series; a document without a series list is
      none. The document is kept either way. */
  lemma PageIsThePoints(windowMs: int, st: AdapterState, body: Option<Json>)
    ensures var (st', batch) := AsAdapter(windowMs).parse(st, body);
            && (batch.Some? <==> body.Some? && HoldsAList(body.value, "series"))
            && st'.lastParsed == (if body.Some? then body.value else st.lastParsed)
            && forall series, parts ::
                 body.Some? && HoldsList(body.value, "series", series) && PointsOf(series, parts)
                 ==> batch == Some(Joined(parts))
  {
    forall series, parts |
      body.Some? && HoldsList(body.value, "series", series) && PointsOf(series, parts)
      ensures Flatten(series) == Joined(parts)
    {
      FlattenJoins(series, parts);
    }
  }

  /** On every schedule the k-th batch the caller receives is the points of the k-th accepted
      document. */
  lemma PointsDelivered(
    e: Setup, windowMs: int, acts: seq<Action>, k: nat, series: seq<Json>, parts: seq<seq<Json>>)
    requires e.adapter == AsAdapter(windowMs) && k < |Delivered(Exec(e, acts).returned)|
    ensures k < |Documents(e, Ticks(e, acts))|
    ensures HoldsAList(Documents(e, Ticks(e, acts))[k], "series")
    ensures HoldsList(Documents(e, Ticks(e, acts))[k], "series", series) && PointsOf(series, parts)
            ==> Delivered(Exec(e, acts).returned)[k] == Joined(parts)
  {
    ExecIsPlay(e, acts);
    DeliveredPrefix(e, acts);
    var st := BatchFromDocument(e, Ticks(e, acts), k);
    PageIsThePoints(windowMs, st, Some(Documents(e, Ticks(e, acts))[k]));
  }

  // ---- Where the stream ends ----

  /** The document's series list is empty. */
  predicate NoSeries(doc: Json) { HoldsList(doc, "series", []) }

  /** After a successful parse the next cursor is one configured window on, and exhausted if and only
      if the current one was or the document has no series. */
  lemma NextIsExhaustedIff(windowMs: int, st: AdapterState, doc: Json, c: Cursor)
    requires AsAdapter(windowMs).parse(st, Some(doc)).1.Some?
    ensures var next := AsAdapter(windowMs).next(AsAdapter(windowMs).parse(st, Some(doc)).0, c);
            && (next.exhausted <==> c.exhausted || NoSeries(doc))
            && next == c.(start := c.start + windowMs, end := c.start + 2 * windowMs,
                          exhausted := next.exhausted)
  {
  }

  lemma SeriesEnder(windowMs: int)
    ensures Ender(AsAdapter(windowMs), NoSeries)
  {
    forall st: AdapterState, doc: Json, c: Cursor |
      !c.exhausted && AsAdapter(windowMs).parse(st, Some(doc)).1.Some?
      ensures AsAdapter(windowMs).next(AsAdapter(windowMs).parse(st, Some(doc)).0, c).exhausted
              <==> NoSeries(doc)
    {
      NextIsExhaustedIff(windowMs, st, doc, c);
    }
  }

  /** On every run the cursor is exhausted if and only if it was so at the start or the last accepted
      document had no series, and that document is the only such one. */
  lemma SeriesEnd(e: Setup, windowMs: int, ticks: seq<Tick>)
    requires e.adapter == AsAdapter(windowMs) && KeepsKey(e.policy)
    ensures EndsThere(e, NoSeries, Documents(e, ticks), Play(e, ticks).core.cursor)
  {
    SeriesEnder(windowMs);
    EndsExactly(e, NoSeries, ticks);
  }

  /** Milliseconds to seconds, toward zero. */
  lemma SecondsTruncate(ms: int)
    ensures ms >= 0 ==> 1000 * Seconds(ms) <= ms < 1000 * Seconds(ms) + 1000
    ensures ms <= 0 ==> 1000 * Seconds(ms) - 1000 < ms <= 1000 * Seconds(ms)
  {
  }

  lemma {:induction false} FlattenSplit(a: seq<Json>, b: seq<Json>)
    ensures Flatten(a + b) == Flatten(a) + Flatten(b)
  {
    if b == [] {
      assert a + b == a;
    } else {
      assert (a + b)[..|a + b| - 1] == a + b[..|b| - 1];
      FlattenSplit(a, b[..|b| - 1]);
    }
  }

  lemma SeriesForgets(windowMs: int)
    ensures HistoryFree(AsAdapter(windowMs))
  {
  }

  // ---- Where the cursor stands ----

  /** The window the current fetch cycle queries, once the first range is behind. */
  function Width(cfg: Config, f: Fetch): int {
    if f.saw429 then Shrink(cfg, f.from.Window()) else f.from.Window()
  }

  /** After k successes the range starts at k windows. Before the cursor advances its end is the
      one the cycle found, shrunk if a 429 was seen; the very first range is not yet set. */
  predicate Stands(cfg: Config, windowMs: int, f: Fetch, c: Core) {
    var k := |c.log|;
    && c.cursor.start == k * windowMs
    && (k == 0 ==> c.cursor.end == 0)
    && (k > 0 ==> c.cursor.Window() > 0)
    && (Accepting(f) || (f.from.start == c.cursor.start && (k > 0 ==>
          f.from.Window() > 0 && c.cursor.Window() == Width(cfg, f))))
    && (f.pc.Parse? || f.pc.Advance? ==> f.pc.req == Query(windowMs, c.cursor))
    && (f.pc.Handle? ==> f.pc.req == Query(windowMs, c.cursor))
  }

  ghost predicate DatadogRun(e: Setup, cfg: Config, windowMs: int) {
    && e.adapter == AsAdapter(windowMs) && Follows(e.policy, cfg)
    && windowMs > 0 && e.initial.start == 0 && e.initial.end == 0
  }

  lemma StandsHandle(e: Setup, cfg: Config, windowMs: int, f: Fetch, c: Core)
    requires DatadogRun(e, cfg, windowMs) && f.pc.Handle? && Stands(cfg, windowMs, f, c)
    ensures var (f', c') := HandleError(e, f, c); Stands(cfg, windowMs, f', c')
  {
    HandleEffect(e, f, c);
    assert e.policy.adjust(c.cursor, false) == AdjustCursor(cfg, c.cursor, false);
  }

  lemma StandsAdvance(e: Setup, cfg: Config, windowMs: int, f: Fetch, c: Core)
    requires DatadogRun(e, cfg, windowMs) && f.pc.Advance? && Stands(cfg, windowMs, f, c)
    ensures var (f', c') := AdvanceCursor(e, f, c); Stands(cfg, windowMs, f', c')
  {
    var k, next := |c.log|, e.adapter.next(c.adapter, c.cursor);
    assert next == NextRange(windowMs, c.adapter, c.cursor);
    var grown := e.policy.adjust(next, true);
    assert grown == AdjustCursor(cfg, next, true);
    StillPositive(cfg, windowMs);
    assert grown.start == next.start && next.Window() > 0 && grown.Window() > 0;
    NextMultiple(k, windowMs);
  }

  lemma NextMultiple(k: nat, w: int)
    ensures (k + 1) * w == k * w + w
    ensures k > 0 && w > 0 ==> k * w > 0
  {
  }

  lemma StandsFrame(
    e: Setup, cfg: Config, windowMs: int, f: Fetch, c: Core, f': Fetch, c': Core)
    requires Stands(cfg, windowMs, f, c)
    requires c'.cursor == c.cursor && c'.log == c.log && f'.saw429 == f.saw429
    requires f'.from == f.from && (Accepting(f) ==> Accepting(f'))
    requires f'.pc.Handle? || f'.pc.Parse? || f'.pc.Advance? ==> f'.pc.req == Query(windowMs, c.cursor)
    ensures Stands(cfg, windowMs, f', c')
  {
  }

  lemma StandsStep(e: Setup, cfg: Config, windowMs: int, f: Fetch, c: Core)
    requires DatadogRun(e, cfg, windowMs) && Running(f) && Stands(cfg, windowMs, f, c)
    ensures Stands(cfg, windowMs, Step(e, f, c).0, Step(e, f, c).1)
  {
    if f.pc.Handle? {
      StandsHandle(e, cfg, windowMs, f, c);
    } else if f.pc.Advance? {
      StandsAdvance(e, cfg, windowMs, f, c);
    } else {
      CursorUntouched(e, f, c);
      StandsFrame(e, cfg, windowMs, f, c, Step(e, f, c).0, Step(e, f, c).1);
    }
  }

  predicate LaneStands(e: Setup, cfg: Config, windowMs: int, l: Lane) {
    if l.fetches == [] then l.core.cursor == e.initial && l.core.log == []
    else Stands(cfg, windowMs, Last(l), l.core)
  }

  lemma StandsTick(e: Setup, cfg: Config, windowMs: int, l: Lane, t: Tick)
    requires DatadogRun(e, cfg, windowMs) && LaneStands(e, cfg, windowMs, l) && !t.StepTick?
    ensures LaneStands(e, cfg, windowMs, Play1(e, l, t))
  {
  }

  lemma {:induction false} StandsAlways(e: Setup, cfg: Config, windowMs: int, ticks: seq<Tick>)
    requires DatadogRun(e, cfg, windowMs)
    ensures LaneStands(e, cfg, windowMs, Play(e, ticks))
  {
    if ticks != [] {
      var l, t := Play(e, ticks[..|ticks| - 1]), ticks[|ticks| - 1];
      StandsAlways(e, cfg, windowMs, ticks[..|ticks| - 1]);
      if !t.StepTick? { StandsTick(e, cfg, windowMs, l, t); }
      else if !Quiet(l) { StandsStep(e, cfg, windowMs, Last(l), l.core); }
    }
  }

  /** After k successes from the zero cursor the range starts at exactly k configured windows,
      whatever 429s, faults and window changes came in between. */
  lemma StartIsFixedStep(e: Setup, cfg: Config, windowMs: int, ticks: seq<Tick>)
    requires DatadogRun(e, cfg, windowMs)
    ensures var c := Play(e, ticks).core; c.cursor.start == |c.log| * windowMs
  {
    StandsAlways(e, cfg, windowMs, ticks);
  }

  lemma SlotOf(cfg: Config, windowMs: int, f: Fetch, c: Core)
    requires windowMs > 0 && Stands(cfg, windowMs, f, c) && f.pc.Advance?
    ensures var k := |c.log|;
            var to := if k == 0 then windowMs else c.cursor.end;
            && f.pc.req == Range(Seconds(k * windowMs), Seconds(to))
            && (k > 0 ==> to == k * windowMs + Width(cfg, f))
  {
    NextMultiple(|c.log|, windowMs);
  }

  /** A response about to be accepted answers a range that covers its own slot
      [k w, (k + 1) w) if and only if it is the first, or the window the cycle works with, after
      the one shrink a 429 causes, is at least the configured one. */
  lemma CoversSlotIff(e: Setup, cfg: Config, windowMs: int, ticks: seq<Tick>)
    requires DatadogRun(e, cfg, windowMs)
    requires var l := Play(e, ticks); l.fetches != [] && Last(l).pc.Advance?
    ensures var l := Play(e, ticks);
            var k, f := |l.core.log|, Last(l);
            var to := if k == 0 then windowMs else l.core.cursor.end;
            && f.pc.req == Range(Seconds(k * windowMs), Seconds(to))
            && (to >= (k + 1) * windowMs <==> k == 0 || Width(cfg, f) >= windowMs)
  {
    StandsAlways(e, cfg, windowMs, ticks);
    SlotOf(cfg, windowMs, Last(Play(e, ticks)), Play(e, ticks).core);
    NextMultiple(|Play(e, ticks).core.log|, windowMs);
  }

  // ---- Coverage ----

  /** The end of the range queried for the i-th success when no 429 interferes. */
  function CalmEnd(cfg: Config, windowMs: int, i: nat): int {
    i * windowMs + if i == 0 then windowMs else Grow(cfg, windowMs)
  }

  predicate CalmLog(cfg: Config, windowMs: int, log: seq<Accepted>) {
    forall i :: 0 <= i < |log| ==>
      log[i].req == Range(Seconds(i * windowMs), Seconds(CalmEnd(cfg, windowMs, i)))
  }

  function CalmCursorEnd(cfg: Config, windowMs: int, k: nat): int {
    if k == 0 then 0 else CalmEnd(cfg, windowMs, k)
  }

  predicate Calm(cfg: Config, windowMs: int, f: Fetch, c: Core) {
    && CalmLog(cfg, windowMs, c.log) && !f.saw429
    && c.cursor.start == |c.log| * windowMs
    && c.cursor.end == CalmCursorEnd(cfg, windowMs, |c.log|)
    && (f.pc.Handle? ==> !IsRateLimited(f.pc.resp))
    && (f.pc.Handle? || f.pc.Parse? || f.pc.Advance? ==>
          f.pc.req == Range(Seconds(|c.log| * windowMs), Seconds(CalmEnd(cfg, windowMs, |c.log|))))
  }

  lemma QueryWhenCalm(cfg: Config, windowMs: int, c: Cursor, k: nat)
    requires windowMs > 0 && c.start == k * windowMs && c.end == CalmCursorEnd(cfg, windowMs, k)
    ensures Query(windowMs, c)
         == Range(Seconds(k * windowMs), Seconds(CalmEnd(cfg, windowMs, k)))
  {
    if k > 0 { assert k * windowMs > 0; }
  }

  lemma CalmAdvance(e: Setup, cfg: Config, windowMs: int, f: Fetch, c: Core)
    requires DatadogRun(e, cfg, windowMs) && f.pc.Advance? && Calm(cfg, windowMs, f, c)
    ensures var (f', c') := AdvanceCursor(e, f, c); Calm(cfg, windowMs, f', c')
  {
    var k := |c.log|;
    var next := e.adapter.next(c.adapter, c.cursor);
    assert next == NextRange(windowMs, c.adapter, c.cursor);
    assert e.policy.adjust(next, true) == AdjustCursor(cfg, next, true);
    assert (k + 1) * windowMs == k * windowMs + windowMs;
  }

  lemma CalmHandle(e: Setup, cfg: Config, windowMs: int, f: Fetch, c: Core)
    requires f.pc.Handle? && Calm(cfg, windowMs, f, c)
    ensures var (f', c') := HandleError(e, f, c); Calm(cfg, windowMs, f', c')
  {
    HandleEffect(e, f, c);
  }

  lemma CalmOther(e: Setup, cfg: Config, windowMs: int, f: Fetch, c: Core)
    requires DatadogRun(e, cfg, windowMs) && NeverLimited(e)
    requires Running(f) && !f.pc.Handle? && !f.pc.Advance? && Calm(cfg, windowMs, f, c)
    ensures Calm(cfg, windowMs, Step(e, f, c).0, Step(e, f, c).1)
  {
    CursorUntouched(e, f, c);
    QueryWhenCalm(cfg, windowMs, c.cursor, |c.log|);
  }

  predicate LaneCalm(e: Setup, cfg: Config, windowMs: int, l: Lane) {
    if l.fetches == [] then l.core.cursor == e.initial && l.core.log == []
    else Calm(cfg, windowMs, Last(l), l.core)
  }

  lemma CalmTick(e: Setup, cfg: Config, windowMs: int, l: Lane, t: Tick)
    requires DatadogRun(e, cfg, windowMs) && LaneCalm(e, cfg, windowMs, l) && !t.StepTick?
    ensures LaneCalm(e, cfg, windowMs, Play1(e, l, t))
  {
  }

  lemma CalmFetch(e: Setup, cfg: Config, windowMs: int, l: Lane)
    requires DatadogRun(e, cfg, windowMs) && NeverLimited(e)
    requires LaneCalm(e, cfg, windowMs, l) && !Quiet(l)
    ensures LaneCalm(e, cfg, windowMs, StepFetch(e, l))
  {
    var f, c := Last(l), l.core;
    if f.pc.Handle? { CalmHandle(e, cfg, windowMs, f, c); }
    else if f.pc.Advance? { CalmAdvance(e, cfg, windowMs, f, c); }
    else { CalmOther(e, cfg, windowMs, f, c); }
  }

  lemma {:induction false} CalmAlways(e: Setup, cfg: Config, windowMs: int, ticks: seq<Tick>)
    requires DatadogRun(e, cfg, windowMs) && NeverLimited(e)
    ensures LaneCalm(e, cfg, windowMs, Play(e, ticks))
  {
    if ticks != [] {
      var l, t := Play(e, ticks[..|ticks| - 1]), ticks[|ticks| - 1];
      CalmAlways(e, cfg, windowMs, ticks[..|ticks| - 1]);
      if !t.StepTick? { CalmTick(e, cfg, windowMs, l, t); }
      else if !Quiet(l) { CalmFetch(e, cfg, windowMs, l); }
    }
  }

  /** Second `t` lies in the i-th queried range. */
  predicate Covers(log: seq<Accepted>, i: int, t: int) {
    0 <= i < |log| && log[i].req.Range? && log[i].req.fromSec <= t < log[i].req.toSec
  }

  /** The i-th accepted range starts at its slot; if `wide`, it also reaches the next one. */
  predicate Slots(windowMs: int, wide: bool, log: seq<Accepted>) {
    forall i :: 0 <= i < |log| ==>
      && log[i].req.Range? && log[i].req.fromSec == Seconds(i * windowMs)
      && (wide ==> log[i].req.toSec >= Seconds((i + 1) * windowMs))
  }

  ghost predicate Covered(log: seq<Accepted>, t: int) { exists i :: Covers(log, i, t) }

  /** Every second of the time the cursor has passed lies in some accepted range. */
  ghost predicate HoleFree(windowMs: int, log: seq<Accepted>) {
    forall t :: 0 <= t < Seconds(|log| * windowMs) ==> Covered(log, t)
  }

  lemma {:induction false} SlotCovers(windowMs: int, log: seq<Accepted>, k: nat, t: int)
    returns (i: int)
    requires 0 < windowMs && Slots(windowMs, true, log)
    requires k <= |log| && 0 <= t < Seconds(k * windowMs)
    ensures Covers(log, i, t)
  {
    if t >= Seconds((k - 1) * windowMs) {
      i := k - 1;
    } else {
      i := SlotCovers(windowMs, log, k - 1, t);
    }
  }

  lemma WideSlotsCover(windowMs: int, log: seq<Accepted>)
    requires 0 < windowMs && Slots(windowMs, true, log)
    ensures HoleFree(windowMs, log)
  {
    forall t | 0 <= t < Seconds(|log| * windowMs)
      ensures Covered(log, t)
    {
      var i := SlotCovers(windowMs, log, |log|, t);
    }
  }

  lemma SecondsMonotone(a: int, b: int)
    requires a <= b
    ensures Seconds(a) <= Seconds(b)
  {
  }

  lemma RangesAbut(cfg: Config, windowMs: int, i: nat)
    requires Valid(cfg) && 0 < windowMs <= cfg.maxWindowMs
    ensures Seconds(CalmEnd(cfg, windowMs, i)) >= Seconds((i + 1) * windowMs)
  {
    ScaleUp(windowMs, cfg.growFactor);
    NextMultiple(i, windowMs);
    SecondsMonotone((i + 1) * windowMs, CalmEnd(cfg, windowMs, i));
  }

  /** On every run without a 429, for a configured window of at most max_window_ms: the ranges
      queried successfully leave no hole, down to the second, in the time the cursor has passed. */
  lemma NoHoleWithout429(e: Setup, cfg: Config, windowMs: int, ticks: seq<Tick>)
    requires DatadogRun(e, cfg, windowMs) && NeverLimited(e) && windowMs <= cfg.maxWindowMs
    ensures HoleFree(windowMs, Play(e, ticks).core.log)
  {
    var log := Play(e, ticks).core.log;
    CalmAlways(e, cfg, windowMs, ticks);
    forall i | 0 <= i < |log|
      ensures log[i].req == Range(Seconds(i * windowMs), Seconds(CalmEnd(cfg, windowMs, i)))
      ensures Seconds(CalmEnd(cfg, windowMs, i)) >= Seconds((i + 1) * windowMs)
    {
      assert CalmLog(cfg, windowMs, log);
      RangesAbut(cfg, windowMs, i);
    }
    WideSlotsCover(windowMs, log);
  }

  // ---- Coverage whatever is limited ----

  /** No window falls below the configured one, if that is at most the minimum. */
  predicate Wide(cfg: Config, windowMs: int, f: Fetch, c: Core) {
    windowMs <= cfg.minWindowMs && |c.log| > 0 ==>
      c.cursor.Window() >= windowMs && (!Accepting(f) ==> f.from.Window() >= windowMs)
  }

  predicate SlotInv(cfg: Config, windowMs: int, f: Fetch, c: Core) {
    && Stands(cfg, windowMs, f, c) && Wide(cfg, windowMs, f, c)
    && Slots(windowMs, windowMs <= cfg.minWindowMs, c.log)
  }

  lemma SlotHandle(e: Setup, cfg: Config, windowMs: int, f: Fetch, c: Core)
    requires DatadogRun(e, cfg, windowMs) && f.pc.Handle? && SlotInv(cfg, windowMs, f, c)
    ensures var (f', c') := HandleError(e, f, c); SlotInv(cfg, windowMs, f', c')
  {
    StandsHandle(e, cfg, windowMs, f, c);
    HandleEffect(e, f, c);
  }

  lemma SlotAppended(windowMs: int, wide: bool, log: seq<Accepted>, a: Accepted)
    requires Slots(windowMs, wide, log)
    requires a.req.Range? && a.req.fromSec == Seconds(|log| * windowMs)
    requires wide ==> a.req.toSec >= Seconds((|log| + 1) * windowMs)
    ensures Slots(windowMs, wide, log + [a])
  {
  }

  lemma SlotAdvance(e: Setup, cfg: Config, windowMs: int, f: Fetch, c: Core)
    requires DatadogRun(e, cfg, windowMs) && f.pc.Advance? && SlotInv(cfg, windowMs, f, c)
    ensures var (f', c') := AdvanceCursor(e, f, c); SlotInv(cfg, windowMs, f', c')
  {
    var k := |c.log|;
    StandsAdvance(e, cfg, windowMs, f, c);
    SlotOf(cfg, windowMs, f, c);
    NextMultiple(k, windowMs);
    var to := if k == 0 then windowMs else c.cursor.end;
    if windowMs <= cfg.minWindowMs { SecondsMonotone((k + 1) * windowMs, to); }
    SlotAppended(windowMs, windowMs <= cfg.minWindowMs, c.log,
                 Accepted(f.pc.req, f.pc.batch, e.adapter.cost(c.adapter)));
    var next := e.adapter.next(c.adapter, c.cursor);
    assert next == NextRange(windowMs, c.adapter, c.cursor) && next.Window() == windowMs;
    assert e.policy.adjust(next, true) == AdjustCursor(cfg, next, true);
    ScaleUp(windowMs, cfg.growFactor);
  }

  lemma SlotStep(e: Setup, cfg: Config, windowMs: int, f: Fetch, c: Core)
    requires DatadogRun(e, cfg, windowMs) && Running(f) && SlotInv(cfg, windowMs, f, c)
    ensures SlotInv(cfg, windowMs, Step(e, f, c).0, Step(e, f, c).1)
  {
    if f.pc.Handle? {
      SlotHandle(e, cfg, windowMs, f, c);
    } else if f.pc.Advance? {
      SlotAdvance(e, cfg, windowMs, f, c);
    } else {
      CursorUntouched(e, f, c);
      StandsStep(e, cfg, windowMs, f, c);
    }
  }

  predicate LaneSlots(e: Setup, cfg: Config, windowMs: int, l: Lane) {
    if l.fetches == [] then l.core.cursor == e.initial && l.core.log == []
    else SlotInv(cfg, windowMs, Last(l), l.core)
  }

  lemma SlotTick(e: Setup, cfg: Config, windowMs: int, l: Lane, t: Tick)
    requires DatadogRun(e, cfg, windowMs) && LaneSlots(e, cfg, windowMs, l) && !t.StepTick?
    ensures LaneSlots(e, cfg, windowMs, Play1(e, l, t))
  {
    StandsTick(e, cfg, windowMs, l, t);
  }

  /** On every run the accepted ranges start at their slots; they reach the next slot too, 429s or
      not, if the configured window is at most min_window_ms. */
  lemma {:induction false} SlotsAlways(e: Setup, cfg: Config, windowMs: int, ticks: seq<Tick>)
    requires DatadogRun(e, cfg, windowMs)
    ensures LaneSlots(e, cfg, windowMs, Play(e, ticks))
    ensures Slots(windowMs, windowMs <= cfg.minWindowMs, Play(e, ticks).core.log)
  {
    if ticks != [] {
      var l, t := Play(e, ticks[..|ticks| - 1]), ticks[|ticks| - 1];
      SlotsAlways(e, cfg, windowMs, ticks[..|ticks| - 1]);
      if !t.StepTick? { SlotTick(e, cfg, windowMs, l, t); }
      else if !Quiet(l) { SlotStep(e, cfg, windowMs, Last(l), l.core); }
    }
  }
}
