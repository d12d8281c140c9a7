/**
 Counting laws of the lane: where every request went, how many there can be, what became of
 every accepted batch and of every unit of cost. They hold after every run of ticks, so in both
 modes and under every schedule.
 */
module Accounting {
  import opened Wire
  import opened Fetching

  // ---- Requests ----

  function Errors(m: Counters): nat { m.rateLimited + m.server + m.client + m.network + m.parse }

  /** Requests not accounted for by a retry, a success or a terminal error. */
  function Balance(m: Counters): int { m.requests - m.retries - m.successes - Errors(m) }

  /** A request has been sent and its outcome is not yet counted. */
  function Pending(pc: Pc): nat {
    if pc.Handle? || pc.Parse? || pc.Advance? || pc.Charge? || pc.Finish? then 1 else 0
  }

  /** Every request is a retry, a success, one of the five terminal errors or an abort. */
  predicate Conserved(f: Fetch, c: Core) {
    && Balance(c.metrics) == c.aborted + Pending(f.pc)
    && c.metrics.records == c.metrics.successes
    && |c.log| == c.metrics.successes + if f.pc.Charge? || f.pc.Finish? then 1 else 0
  }

  /** A fetch that began after the flag was set, or that runs after an abort, gets no further
      than the first look at the flag. */
  predicate AtTheDoor(pc: Pc) {
    pc.Entry? || pc.CheckCancel? || (pc.Returned? && !pc.result.Ok())
  }

  predicate CancelBounds(f: Fetch, c: Core) {
    && (f.late ==> c.cancelled && AtTheDoor(f.pc))
    && c.aborted <= 1 && (c.aborted == 1 ==> c.cancelled && AtTheDoor(f.pc))
    && c.lateSends <= 1 && (c.lateSends == 1 ==> c.cancelled && !f.pc.Send?)
  }

  /** One request more than retries once the loop was entered, and never beyond max_retries. */
  predicate RetryBounds(e: Setup, f: Fetch) {
    && f.retry <= e.policy.maxRetries && |f.naps| == f.retry
    && (f.pc.Entry? || f.pc.CheckCancel? || f.pc.CheckBudget? ==> f.sent == 0 && f.retry == 0)
    && (f.pc.Loop? || f.pc.Send? ==> f.sent == f.retry)
    && (f.pc.Handle? ==> f.sent == f.retry + 1)
    && f.sent <= f.retry + 1
  }

  predicate Ledger(e: Setup, f: Fetch, c: Core) {
    Conserved(f, c) && CancelBounds(f, c) && RetryBounds(e, f)
  }

  lemma ConservedHandle(e: Setup, f: Fetch, c: Core)
    requires f.pc.Handle? && Conserved(f, c)
    ensures var (f', c') := HandleError(e, f, c); Conserved(f', c')
  {
  }

  lemma ConservedSend(e: Setup, f: Fetch, c: Core)
    requires f.pc.Send? && Conserved(f, c)
    ensures var (f', c') := SendRequest(e, f, c); Conserved(f', c')
  {
  }

  lemma ConservedParse(e: Setup, f: Fetch, c: Core)
    requires f.pc.Parse? && Conserved(f, c)
    ensures var (f', c') := ParseResponse(e, f, c); Conserved(f', c')
  {
  }

  lemma ConservedAdvance(e: Setup, f: Fetch, c: Core)
    requires f.pc.Advance? && Conserved(f, c)
    ensures var (f', c') := AdvanceCursor(e, f, c); Conserved(f', c')
  {
  }

  lemma ConservedFinish(f: Fetch, c: Core)
    requires f.pc.Finish? && Conserved(f, c)
    ensures var (f', c') := FinishFetch(f, c); Conserved(f', c')
  {
  }

  lemma ConservedFrame(f: Fetch, c: Core, f': Fetch, c': Core)
    requires Conserved(f, c)
    requires c'.metrics == c.metrics && c'.log == c.log && c'.aborted == c.aborted
    requires f'.pc.Finish? <==> f.pc.Charge?
    requires f.pc.Charge? || (Pending(f.pc) == 0 == Pending(f'.pc))
    ensures Conserved(f', c')
  {
  }

  lemma ConservedStep(e: Setup, f: Fetch, c: Core)
    requires Running(f) && Conserved(f, c)
    ensures Conserved(Step(e, f, c).0, Step(e, f, c).1)
  {
    if f.pc.Handle? { ConservedHandle(e, f, c); }
    else if f.pc.Send? { ConservedSend(e, f, c); }
    else if f.pc.Parse? { ConservedParse(e, f, c); }
    else if f.pc.Advance? { ConservedAdvance(e, f, c); }
    else if f.pc.Finish? { ConservedFinish(f, c); }
    else { ConservedFrame(f, c, Step(e, f, c).0, Step(e, f, c).1); }
  }

  lemma CancelBoundsStep(e: Setup, f: Fetch, c: Core)
    requires Running(f) && CancelBounds(f, c)
    ensures var (f', c') := Step(e, f, c); CancelBounds(f', c')
  {
  }

  lemma RetryBoundsHandle(e: Setup, f: Fetch, c: Core)
    requires f.pc.Handle? && RetryBounds(e, f)
    ensures RetryBounds(e, HandleError(e, f, c).0)
  {
  }

  lemma RetryBoundsStep(e: Setup, f: Fetch, c: Core)
    requires Running(f) && RetryBounds(e, f)
    ensures RetryBounds(e, Step(e, f, c).0)
  {
    if f.pc.Handle? { RetryBoundsHandle(e, f, c); }
  }

  predicate Fresh(c: Core) {
    && Balance(c.metrics) == 0 && c.metrics.records == 0 == c.metrics.successes
    && c.log == [] && c.aborted == 0 && c.lateSends == 0
  }

  predicate LaneLedger(e: Setup, l: Lane) {
    && (if l.fetches == [] then Fresh(l.core) else Ledger(e, Last(l), l.core))
    && forall i :: 0 <= i < |l.fetches| ==>
         && l.fetches[i].sent <= e.policy.maxRetries + 1
         && (l.fetches[i].late ==> !IsOk(l.fetches[i]))
  }

  lemma BeginLedger(e: Setup, f: Fetch, c: Core)
    requires Ledger(e, f, c) && !Running(f)
    ensures Ledger(e, Begin(c), c)
  {
  }

  lemma FirstLedger(e: Setup, c: Core)
    requires Fresh(c)
    ensures Ledger(e, Begin(c), c)
  {
  }

  lemma BeginLaneLedger(e: Setup, l: Lane)
    requires LaneLedger(e, l) && Quiet(l)
    ensures LaneLedger(e, BeginFetch(l))
  {
    if l.fetches == [] { FirstLedger(e, l.core); } else { BeginLedger(e, Last(l), l.core); }
    assert Last(BeginFetch(l)) == Begin(l.core);
  }

  lemma FlagLedger(e: Setup, l: Lane, t: Tick)
    requires LaneLedger(e, l) && (t.CancelTick? || t.DoneTick?)
    ensures LaneLedger(e, Play1(e, l, t))
  {
  }

  lemma LedgerFetch(e: Setup, l: Lane)
    requires LaneLedger(e, l) && !Quiet(l)
    ensures LaneLedger(e, StepFetch(e, l))
  {
    ConservedStep(e, Last(l), l.core);
    CancelBoundsStep(e, Last(l), l.core);
    RetryBoundsStep(e, Last(l), l.core);
  }

  lemma LedgerTick(e: Setup, l: Lane, t: Tick)
    requires LaneLedger(e, l)
    ensures LaneLedger(e, Play1(e, l, t))
  {
    match t
    case StepTick => if !Quiet(l) { LedgerFetch(e, l); }
    case BeginTick => if Quiet(l) { BeginLaneLedger(e, l); }
    case _ => FlagLedger(e, l, t);
  }

  lemma InitialFresh(e: Setup)
    ensures Fresh(InitialCore(e))
  {
  }

  lemma EmptyLedger(e: Setup, l: Lane)
    requires l.fetches == [] && Fresh(l.core)
    ensures LaneLedger(e, l)
  {
  }

  lemma {:induction false} LedgerHolds(e: Setup, ticks: seq<Tick>)
    ensures LaneLedger(e, Play(e, ticks))
  {
    if ticks == [] {
      InitialFresh(e);
      EmptyLedger(e, InitialLane(e));
    } else {
      LedgerHolds(e, ticks[..|ticks| - 1]);
      LedgerTick(e, Play(e, ticks[..|ticks| - 1]), ticks[|ticks| - 1]);
    }
  }

  /** The conservation law, in every state between fetch cycles: each request is a retry, a
      success, a counted error, or the one request that cancellation may have cut short. */
  lemma RequestConservation(e: Setup, ticks: seq<Tick>)
    requires Quiet(Play(e, ticks))
    ensures var c := Play(e, ticks).core; var m := c.metrics;
            && m.requests == m.retries + m.successes + Errors(m) + c.aborted
            && c.aborted <= 1 && (c.aborted == 1 ==> c.cancelled)
            && m.records == m.successes == |c.log|
  {
    LedgerHolds(e, ticks);
  }

  /** At most one request starts once the cancel flag is set. */
  lemma AtMostOneLateRequest(e: Setup, ticks: seq<Tick>)
    ensures Play(e, ticks).core.lateSends <= 1
  {
    LedgerHolds(e, ticks);
  }

  function Sent(fetches: seq<Fetch>): nat {
    if fetches == [] then 0
    else Sent(fetches[..|fetches| - 1]) + fetches[|fetches| - 1].sent
  }

  lemma SentOneMore(fetches: seq<Fetch>, f: Fetch)
    ensures Sent(fetches + [f]) == Sent(fetches) + f.sent
  {
    assert (fetches + [f])[..|fetches|] == fetches;
  }

  lemma SentReplaced(fetches: seq<Fetch>, f: Fetch)
    requires fetches != []
    ensures Sent(fetches[|fetches| - 1 := f]) == Sent(fetches) - fetches[|fetches| - 1].sent + f.sent
  {
    var before := fetches[..|fetches| - 1];
    assert fetches[|fetches| - 1 := f] == before + [f];
    SentOneMore(before, f);
  }

  lemma SentByHandle(e: Setup, f: Fetch, c: Core)
    requires f.pc.Handle?
    ensures var (f', c') := HandleError(e, f, c);
            c'.metrics.requests == c.metrics.requests && f'.sent == f.sent
  {
  }

  lemma SentByStep(e: Setup, f: Fetch, c: Core)
    requires Running(f)
    ensures var (f', c') := Step(e, f, c);
            c'.metrics.requests - f'.sent == c.metrics.requests - f.sent
  {
    if f.pc.Handle? { SentByHandle(e, f, c); }
  }

  lemma {:induction false} SentCounts(e: Setup, ticks: seq<Tick>)
    ensures Play(e, ticks).core.metrics.requests == Sent(Play(e, ticks).fetches)
  {
    if ticks != [] {
      var l, t := Play(e, ticks[..|ticks| - 1]), ticks[|ticks| - 1];
      SentCounts(e, ticks[..|ticks| - 1]);
      if t.StepTick? && !Quiet(l) {
        SentByStep(e, Last(l), l.core);
        SentReplaced(l.fetches, Step(e, Last(l), l.core).0);
      }
      SentOneMore(l.fetches, Begin(l.core));
    }
  }

  lemma {:induction false} SentAtMost(fetches: seq<Fetch>, k: nat)
    requires forall i :: 0 <= i < |fetches| ==> fetches[i].sent <= k
    ensures Sent(fetches) <= k * |fetches|
  {
    if fetches != [] { SentAtMost(fetches[..|fetches| - 1], k); }
  }

  /** Each fetch cycle makes at most max_retries + 1 requests. */
  lemma RequestsPerFetch(e: Setup, ticks: seq<Tick>)
    ensures var l := Play(e, ticks);
            && (forall i :: 0 <= i < |l.fetches| ==> l.fetches[i].sent <= e.policy.maxRetries + 1)
            && l.core.metrics.requests <= (e.policy.maxRetries + 1) * |l.fetches|
  {
    var l := Play(e, ticks);
    LedgerHolds(e, ticks);
    SentCounts(e, ticks);
    SentAtMost(l.fetches, e.policy.maxRetries + 1);
  }

  // ---- Batches ----

  /** The batch a fetch cycle has accepted, if it has. */
  function Yield(f: Fetch): seq<Batch> {
    match f.pc
    case Charge(b) => [b]
    case Finish(b) => [b]
    case Returned(r) => r.batches
    case _ => []
  }

  function Yields(fetches: seq<Fetch>): seq<Batch> {
    if fetches == [] then []
    else Yields(fetches[..|fetches| - 1]) + Yield(fetches[|fetches| - 1])
  }

  function Batches(log: seq<Accepted>): seq<Batch> {
    seq(|log|, i requires 0 <= i < |log| => log[i].batch)
  }

  /** An OK result carries exactly one batch, any other result none. */
  predicate WellShaped(f: Fetch) {
    f.pc.Returned? ==> |f.pc.result.batches| == if f.pc.result.Ok() then 1 else 0
  }

  predicate NothingLost(l: Lane) {
    && Yields(l.fetches) == Batches(l.core.log)
    && (forall i :: 0 <= i < |l.fetches| ==> WellShaped(l.fetches[i]))
    && (forall i :: 0 <= i < |l.fetches| - 1 ==> !Running(l.fetches[i]))
  }

  /** A step yields what it adds to the log. */
  predicate YieldsMore(f: Fetch, c: Core, f': Fetch, c': Core) {
    && WellShaped(f')
    && c.log <= c'.log
    && Yield(f') == Yield(f) + Batches(c'.log[|c.log|..])
  }

  lemma YieldHandle(e: Setup, f: Fetch, c: Core)
    requires f.pc.Handle?
    ensures var (f', c') := HandleError(e, f, c);
            c'.log == c.log && Yield(f') == [] && WellShaped(f')
  {
  }

  lemma YieldStep(e: Setup, f: Fetch, c: Core)
    requires Running(f)
    ensures var (f', c') := Step(e, f, c); YieldsMore(f, c, f', c')
  {
    if f.pc.Handle? { YieldHandle(e, f, c); }
    assert c.log[|c.log|..] == [];
  }

  lemma YieldsOneMore(fetches: seq<Fetch>, f: Fetch)
    ensures Yields(fetches + [f]) == Yields(fetches) + Yield(f)
  {
    assert (fetches + [f])[..|fetches|] == fetches;
  }

  lemma BatchesGrow(log: seq<Accepted>, longer: seq<Accepted>)
    requires log <= longer
    ensures Batches(longer) == Batches(log) + Batches(longer[|log|..])
  {
  }

  lemma YieldsOfLast(fetches: seq<Fetch>, f: Fetch)
    requires fetches != []
    ensures var n := |fetches| - 1;
            && Yields(fetches) == Yields(fetches[..n]) + Yield(fetches[n])
            && Yields(fetches[n := f]) == Yields(fetches[..n]) + Yield(f)
  {
    assert fetches[|fetches| - 1 := f][..|fetches| - 1] == fetches[..|fetches| - 1];
  }

  lemma Appended<T>(a: seq<T>, b: seq<T>, c: seq<T>)
    ensures a + (b + c) == a + b + c
  {
  }

  lemma YieldsReplaced(l: Lane, f: Fetch, c: Core)
    requires NothingLost(l) && l.fetches != [] && WellShaped(f) && l.core.log <= c.log
    requires Yield(f) == Yield(Last(l)) + Batches(c.log[|l.core.log|..])
    ensures NothingLost(Lane(c, l.fetches[|l.fetches| - 1 := f]))
  {
    YieldsOfLast(l.fetches, f);
    BatchesGrow(l.core.log, c.log);
    Appended(Yields(l.fetches[..|l.fetches| - 1]), Yield(Last(l)), Batches(c.log[|l.core.log|..]));
  }

  lemma YieldsFetch(e: Setup, l: Lane)
    requires NothingLost(l) && !Quiet(l)
    ensures NothingLost(StepFetch(e, l))
  {
    YieldStep(e, Last(l), l.core);
    YieldsReplaced(l, Step(e, Last(l), l.core).0, Step(e, Last(l), l.core).1);
  }

  lemma YieldsTick(e: Setup, l: Lane, t: Tick)
    requires NothingLost(l) && !t.StepTick?
    ensures NothingLost(Play1(e, l, t))
  {
    YieldsOneMore(l.fetches, Begin(l.core));
  }

  /** Every accepted batch is the yield of exactly one fetch cycle, in order. */
  lemma {:induction false} EveryBatchYielded(e: Setup, ticks: seq<Tick>)
    ensures NothingLost(Play(e, ticks))
  {
    if ticks != [] {
      var l, t := Play(e, ticks[..|ticks| - 1]), ticks[|ticks| - 1];
      EveryBatchYielded(e, ticks[..|ticks| - 1]);
      if t.StepTick? && !Quiet(l) { YieldsFetch(e, l); }
      if !t.StepTick? { YieldsTick(e, l, t); }
    }
  }
}
