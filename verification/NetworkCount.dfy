/**
 What the counters count. The metrics guide describes error_network as the NETWORK errors returned to
 the caller; a prefetch timeout returns one without counting it.
 */
module NetworkCount {
  import opened Wire
  import opened Fetching
  import opened Prefetch
  import opened Projection

  predicate EndsIn(f: Fetch, code: Code) { f.pc.Returned? && f.pc.result.error == code }

  /** How many fetch cycles ended with that code. */
  function Ended(fetches: seq<Fetch>, code: Code): nat {
    if fetches == [] then 0
    else Ended(fetches[..|fetches| - 1], code) + if EndsIn(fetches[|fetches| - 1], code) then 1 else 0
  }

  function Retried(fetches: seq<Fetch>): nat {
    if fetches == [] then 0
    else Retried(fetches[..|fetches| - 1]) + fetches[|fetches| - 1].retry
  }

  function Returns(returned: seq<Return>): nat {
    if returned == [] then 0
    else Returns(returned[..|returned| - 1])
         + if returned[|returned| - 1].result.error == NETWORK then 1 else 0
  }

  // ---- What is counted ----

  predicate CountsOutcome(m: Counters, m': Counters, g: Fetch) {
    && m'.successes == m.successes + (if EndsIn(g, OK) then 1 else 0)
    && m'.rateLimited == m.rateLimited + (if EndsIn(g, RATE_LIMIT) then 1 else 0)
    && m'.server == m.server + (if EndsIn(g, SERVER) then 1 else 0)
    && m'.client == m.client + (if EndsIn(g, CLIENT) then 1 else 0)
    && m'.network == m.network + (if EndsIn(g, NETWORK) then 1 else 0)
    && m'.parse == m.parse + (if EndsIn(g, PARSE) then 1 else 0)
  }

  predicate CountsStep(f: Fetch, c: Core, g: Fetch, d: Core) {
    CountsOutcome(c.metrics, d.metrics, g) && d.metrics.retries == c.metrics.retries + g.retry - f.retry
  }

  lemma NetworkCounted(e: Setup, f: Fetch, c: Core)
    requires Running(f)
    ensures var (g, d) := HandleNetwork(e, f, c); CountsStep(f, c, g, d)
  {
  }

  lemma RetryableCounted(e: Setup, f: Fetch, c: Core, resp: Response)
    requires Running(f)
    ensures var (g, d) := HandleRetryable(e, f, c, resp); CountsStep(f, c, g, d)
  {
  }

  lemma HandleCounted(e: Setup, f: Fetch, c: Core)
    requires f.pc.Handle?
    ensures var (g, d) := HandleError(e, f, c); CountsStep(f, c, g, d)
  {
    NetworkCounted(e, f, c);
    RetryableCounted(e, f, c, f.pc.resp);
  }

  lemma ParseCounted(e: Setup, f: Fetch, c: Core)
    requires f.pc.Parse?
    ensures var (g, d) := ParseResponse(e, f, c); CountsStep(f, c, g, d)
  {
  }

  lemma FinishCounted(f: Fetch, c: Core)
    requires f.pc.Finish?
    ensures var (g, d) := FinishFetch(f, c); CountsStep(f, c, g, d)
  {
  }

  lemma OtherCounted(e: Setup, f: Fetch, c: Core)
    requires Running(f) && !f.pc.Handle? && !f.pc.Parse? && !f.pc.Finish?
    ensures var (g, d) := Step(e, f, c); CountsStep(f, c, g, d)
  {
    CountersElsewhere(e, f, c);
  }

  lemma CountersElsewhere(e: Setup, f: Fetch, c: Core)
    requires Running(f) && !f.pc.Handle? && !f.pc.Parse? && !f.pc.Finish?
    ensures var (g, d) := Step(e, f, c);
            && d.metrics == c.metrics.(requests := d.metrics.requests) && g.retry == f.retry
            && (g.pc.Returned? ==> g.pc.result.error in {EXHAUSTED, CANCELLED, BUDGET_EXHAUSTED})
  {
  }

  lemma CountedOnReturn(e: Setup, f: Fetch, c: Core)
    requires Running(f)
    ensures var (g, d) := Step(e, f, c); CountsStep(f, c, g, d)
  {
    match f.pc
    case Handle(_, _) => HandleCounted(e, f, c);
    case Parse(_, _) => ParseCounted(e, f, c);
    case Finish(_) => FinishCounted(f, c);
    case _ => OtherCounted(e, f, c);
  }

  lemma EndedOneMore(fetches: seq<Fetch>, f: Fetch, code: Code)
    ensures Ended(fetches + [f], code) == Ended(fetches, code) + if EndsIn(f, code) then 1 else 0
    ensures Retried(fetches + [f]) == Retried(fetches) + f.retry
  {
    assert (fetches + [f])[..|fetches|] == fetches;
  }

  lemma EndedReplaced(fetches: seq<Fetch>, f: Fetch, code: Code)
    requires fetches != [] && Running(fetches[|fetches| - 1])
    ensures Ended(fetches[|fetches| - 1 := f], code)
         == Ended(fetches, code) + if EndsIn(f, code) then 1 else 0
    ensures Retried(fetches[|fetches| - 1 := f])
         == Retried(fetches) - fetches[|fetches| - 1].retry + f.retry
  {
    var before := fetches[..|fetches| - 1];
    assert fetches[|fetches| - 1 := f] == before + [f];
    EndedOneMore(before, f, code);
  }

  /** Each outcome counter is the number of fetch cycles that ended so; retry_count is the number of
      times a cycle went round its loop again. */
  predicate Counted(m: Counters, fetches: seq<Fetch>) {
    && m.successes == Ended(fetches, OK) && m.rateLimited == Ended(fetches, RATE_LIMIT)
    && m.server == Ended(fetches, SERVER) && m.client == Ended(fetches, CLIENT)
    && m.network == Ended(fetches, NETWORK) && m.parse == Ended(fetches, PARSE)
    && m.retries == Retried(fetches)
  }

  lemma CountedBegin(l: Lane)
    requires Counted(l.core.metrics, l.fetches)
    ensures Counted(l.core.metrics, BeginFetch(l).fetches)
  {
    forall code
      ensures Ended(BeginFetch(l).fetches, code) == Ended(l.fetches, code)
      ensures Retried(BeginFetch(l).fetches) == Retried(l.fetches)
    {
      EndedOneMore(l.fetches, Begin(l.core), code);
    }
  }

  lemma CountedStep(e: Setup, l: Lane)
    requires Counted(l.core.metrics, l.fetches) && !Quiet(l)
    ensures Counted(StepFetch(e, l).core.metrics, StepFetch(e, l).fetches)
  {
    var (g, d) := Step(e, Last(l), l.core);
    CountedOnReturn(e, Last(l), l.core);
    forall code
      ensures Ended(StepFetch(e, l).fetches, code)
           == Ended(l.fetches, code) + if EndsIn(g, code) then 1 else 0
      ensures Retried(StepFetch(e, l).fetches) == Retried(l.fetches) - Last(l).retry + g.retry
    {
      EndedReplaced(l.fetches, g, code);
    }
  }

  lemma {:induction false} OutcomesAreCounted(e: Setup, ticks: seq<Tick>)
    ensures Counted(Play(e, ticks).core.metrics, Play(e, ticks).fetches)
  {
    if ticks != [] {
      var l, t := Play(e, ticks[..|ticks| - 1]), ticks[|ticks| - 1];
      OutcomesAreCounted(e, ticks[..|ticks| - 1]);
      if t.StepTick? && !Quiet(l) { CountedStep(e, l); }
      if t.BeginTick? && Quiet(l) { CountedBegin(l); }
    }
  }

  // ---- What is returned ----

  lemma {:induction false} HandedCounts(s: System, k: nat)
    requires Handed(s, k)
    ensures Returns(s.returned[..k]) == Ended(s.lane.fetches[..k], NETWORK)
  {
    if k > 0 {
      HandedCounts(s, k - 1);
      assert s.returned[..k][..k - 1] == s.returned[..k - 1];
      assert s.lane.fetches[..k][..k - 1] == s.lane.fetches[..k - 1];
    }
  }

  lemma {:induction false} QuietTail(returned: seq<Return>, k: nat)
    requires k <= |returned|
    requires forall i :: k <= i < |returned| ==> returned[i].result.error != NETWORK
    ensures Returns(returned) == Returns(returned[..k])
  {
    if k == |returned| {
      assert returned[..k] == returned;
    } else {
      var rest := returned[..|returned| - 1];
      assert rest[..k] == returned[..k];
      QuietTail(rest, k);
    }
  }

  lemma TimedOutReturns(s: System)
    requires StoppedInv(s) && s.timedOut
    ensures Returns(s.returned) == Ended(s.lane.fetches[..|s.lane.fetches| - 1], NETWORK) + 1
  {
    var n := |s.lane.fetches|;
    HandedCounts(s, n - 1);
    QuietTail(s.returned, n);
    OneMoreReturn(s.returned, n);
  }

  lemma OneMoreReturn(returned: seq<Return>, n: nat)
    requires 0 < n <= |returned|
    ensures Returns(returned[..n])
         == Returns(returned[..n - 1]) + if returned[n - 1].result.error == NETWORK then 1 else 0
  {
    assert returned[..n][..n - 1] == returned[..n - 1];
  }

  lemma AllReturned(s: System)
    requires Handed(s, |s.lane.fetches|)
    requires forall i :: |s.lane.fetches| <= i < |s.returned| ==>
               s.returned[i].result.error != NETWORK
    ensures Returns(s.returned) == Ended(s.lane.fetches, NETWORK)
  {
    var n := |s.lane.fetches|;
    HandedCounts(s, n);
    QuietTail(s.returned, n);
    assert s.lane.fetches[..n] == s.lane.fetches;
  }

  /** Both modes, at rest with nothing in flight: error_network is the number of NETWORK results
      returned, if and only if no wait timed out, or the orphaned cycle ended in NETWORK itself. */
  lemma NetworkCountIff(e: Setup, acts: seq<Action>)
    requires Exec(e, acts).consumer.Idle? && !Exec(e, acts).inFlight
    ensures var s := Exec(e, acts);
            s.lane.core.metrics.network == Returns(s.returned)
            <==> !s.timedOut || (s.lane.fetches != [] && EndsIn(Last(s.lane), NETWORK))
  {
    var s := Exec(e, acts);
    ProtocolInvariant(e, acts);
    ExecIsPlay(e, acts);
    OutcomesAreCounted(e, Ticks(e, acts));
    if s.timedOut { TimedOutReturns(s); } else { AllReturned(s); }
  }
}
