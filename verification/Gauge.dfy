/**
 The metrics guide promises the cost gauge after every response_cost(); the engine never sets it.
 Exactly for which adapters that shows.
 */
module Gauge {
  import opened Wire
  import opened Fetching
  import opened Prefetch
  import opened Projection
  import opened Chain
  import opened Budget
  import opened Realised
  import GenericRest
  import Datadog
  import Prompts

  /** The gauge shows the cumulative cost the adapter reported. */
  predicate GaugeIsRight(c: Core) { c.metrics.cumulativeCost == SumCosts(c.log) }

  /** The adapter reports no positive cost on any page it can read. */
  ghost predicate ReportsNoCost(a: Adapter) {
    forall body: Option<Json> ::
      var (st, batch) := a.parse(FRESH_ADAPTER, body);
      batch.Some? && a.cost(st).Some? ==> a.cost(st).value <= 0.0
  }

  /** Costs are never negative. */
  ghost predicate CostsAreCosts(a: Adapter) {
    forall st: AdapterState :: a.cost(st).Some? ==> a.cost(st).value >= 0.0
  }

  // ---- What the gauge shows ----

  lemma GaugeUntouched(e: Setup, f: Fetch, c: Core)
    requires Running(f)
    ensures Step(e, f, c).1.metrics.cumulativeCost == c.metrics.cumulativeCost
  {
  }

  lemma {:induction false} GaugeIsZero(e: Setup, ticks: seq<Tick>)
    ensures Play(e, ticks).core.metrics.cumulativeCost == 0.0
  {
    if ticks != [] {
      var l, t := Play(e, ticks[..|ticks| - 1]), ticks[|ticks| - 1];
      GaugeIsZero(e, ticks[..|ticks| - 1]);
      if t.StepTick? && !Quiet(l) { GaugeUntouched(e, Last(l), l.core); }
    }
  }

  // ---- What was reported ----

  predicate FreeLog(log: seq<Accepted>) { forall i :: 0 <= i < |log| ==> CostOf(log[i]) == 0.0 }

  lemma {:induction false} FreeSum(log: seq<Accepted>)
    requires FreeLog(log)
    ensures SumCosts(log) == 0.0
  {
    if log != [] { FreeSum(log[..|log| - 1]); }
  }

  lemma FreeStep(e: Setup, f: Fetch, c: Core)
    requires HistoryFree(e.adapter) && ReportsNoCost(e.adapter) && CostsAreCosts(e.adapter)
    requires Running(f) && ReadsLatest(e, f, c) && FreeLog(c.log)
    ensures FreeLog(Step(e, f, c).1.log)
  {
    if f.pc.Handle? {
      HandleEffect(e, f, c);
    } else if f.pc.Advance? {
      AdvanceIsFree(e, f, c);
    } else {
      CursorUntouched(e, f, c);
    }
  }

  lemma AdvanceIsFree(e: Setup, f: Fetch, c: Core)
    requires HistoryFree(e.adapter) && ReportsNoCost(e.adapter) && CostsAreCosts(e.adapter)
    requires f.pc.Advance? && ReadsLatest(e, f, c)
    ensures var cost := e.adapter.cost(c.adapter); cost.Some? ==> cost.value == 0.0
  {
    var body := e.transport(c.metrics.requests - 1, f.pc.req).body;
    var st :| e.adapter.parse(st, body) == (c.adapter, Some(f.pc.batch));
    assert e.adapter.parse(st, body) == e.adapter.parse(FRESH_ADAPTER, body);
  }

  lemma {:induction false} LogIsFree(e: Setup, ticks: seq<Tick>)
    requires HistoryFree(e.adapter) && ReportsNoCost(e.adapter) && CostsAreCosts(e.adapter)
    ensures FreeLog(Play(e, ticks).core.log)
  {
    if ticks != [] {
      var before := ticks[..|ticks| - 1];
      var l := Play(e, before);
      LogIsFree(e, before);
      NextReadsLatest(e, before);
      if ticks[|ticks| - 1].StepTick? && !Quiet(l) { FreeStep(e, Last(l), l.core); }
    }
  }

  lemma OnePageCost(a: Adapter, p: Policy, body: Option<Json>) returns (acts: seq<Action>)
    requires a.parse(FRESH_ADAPTER, body).1.Some?
    ensures var l := Exec(OnePage(a, p, body, ZERO_CURSOR), acts).lane;
            && Quiet(l)
            && SumCosts(l.core.log)
               == (match a.cost(a.parse(FRESH_ADAPTER, body).0) case Some(x) => x case None => 0.0)
  {
    var e := OnePage(a, p, body, ZERO_CURSOR);
    acts := Reaches(e, 1);
    OnePageFetch(a, p, body, ZERO_CURSOR);
    var log := Exec(e, acts).lane.core.log;
    assert log[..|log| - 1] == [];
  }

  /** Under each policy, with a budget or without, so in each mode: between fetch cycles the gauge
      shows the cost reported so far, on every engine with this adapter and under every schedule, if
      and only if the adapter reports no positive cost on any page it can read. */
  lemma GaugeIsRightIff(a: Adapter, p: Policy)
    requires HistoryFree(a) && CostsAreCosts(a)
    ensures (forall e: Setup, acts: seq<Action> ::
               e.adapter == a && e.policy == p && Quiet(Exec(e, acts).lane)
               ==> GaugeIsRight(Exec(e, acts).lane.core))
       <==> ReportsNoCost(a)
  {
    if ReportsNoCost(a) {
      forall e: Setup, acts: seq<Action> |
        e.adapter == a && e.policy == p && Quiet(Exec(e, acts).lane)
        ensures GaugeIsRight(Exec(e, acts).lane.core)
      {
        ExecIsPlay(e, acts);
        GaugeIsZero(e, Ticks(e, acts));
        LogIsFree(e, Ticks(e, acts));
        FreeSum(Exec(e, acts).lane.core.log);
      }
    } else {
      var body: Option<Json> :|
        && a.parse(FRESH_ADAPTER, body).1.Some? && a.cost(a.parse(FRESH_ADAPTER, body).0).Some?
        && a.cost(a.parse(FRESH_ADAPTER, body).0).value > 0.0;
      var e := OnePage(a, p, body, ZERO_CURSOR);
      var acts := OnePageCost(a, p, body);
      ExecIsPlay(e, acts);
      GaugeIsZero(e, Ticks(e, acts));
    }
  }

  // ---- The four adapters ----

  /** generic_rest and datadog_metrics report no cost. */
  lemma DataAdaptersReportNone(rest: GenericRest.RestConfig, windowMs: int)
    ensures ReportsNoCost(GenericRest.AsAdapter(rest)) && CostsAreCosts(GenericRest.AsAdapter(rest))
    ensures ReportsNoCost(Datadog.AsAdapter(windowMs)) && CostsAreCosts(Datadog.AsAdapter(windowMs))
  {
  }

  const USAGE := Obj(map["total_tokens" := Num(42), "input_tokens" := Num(40),
                         "output_tokens" := Num(2)])

  const ANSWER := Obj(map["choices" := Arr([]), "content" := Arr([]), "usage" := USAGE])

  /** openai and anthropic report one, as for an answer of 42 tokens. */
  lemma PromptAdaptersReport(prompts: seq<string>)
    ensures !ReportsNoCost(Prompts.OpenAI(prompts)) && CostsAreCosts(Prompts.OpenAI(prompts))
    ensures !ReportsNoCost(Prompts.Anthropic(prompts)) && CostsAreCosts(Prompts.Anthropic(prompts))
  {
    assert ANSWER.Field("choices") == ANSWER.Field("content") == Some(Arr([]));
    assert ANSWER.Field("usage").Some?;
    var usage := ANSWER.Field("usage").value;
    assert usage.Field("total_tokens") == Some(Num(42));
    assert usage.Field("input_tokens") == Some(Num(40)) && usage.Field("output_tokens") == Some(Num(2));
    var body := Some(ANSWER);
    assert Prompts.ParseChoices(FRESH_ADAPTER, body) == (AdapterState(ANSWER, 42), Some([]));
    assert Prompts.ParseContent(FRESH_ADAPTER, body) == (AdapterState(ANSWER, 42), Some([]));
    assert Prompts.OpenAI(prompts).parse(FRESH_ADAPTER, body) == (AdapterState(ANSWER, 42), Some([]));
    assert Prompts.Anthropic(prompts).parse(FRESH_ADAPTER, body) == (AdapterState(ANSWER, 42), Some([]));
  }
}
