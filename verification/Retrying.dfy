/**
 When a fetch cycle goes on and when it ends, told from the answers of the server alone: on every
 run, and exactly for a cycle that nobody disturbs.
 */
module Retrying {
  import opened Wire
  import opened Decimal
  import opened Fetching
  import opened Prefetch
  import opened Accounting
  import opened Refinement
  import opened Faultless

  // ---- Statuses ----

  /** No answer, rate limiting and server errors: what is worth another try. */
  predicate Fault(status: int) { status == 0 || status == 429 || 500 <= status <= 599 }

  predicate Refusal(status: int) { 400 <= status <= 499 && status != 429 }

  /** What a fault is reported as when no try is left. */
  function Report(status: int): Code {
    if status == 0 then NETWORK else if status == 429 then RATE_LIMIT else SERVER
  }

  lemma StatusesByNumber(resp: Response)
    ensures Fault(resp.status) <==> resp.status == 0 || IsRetryable(resp)
    ensures Refusal(resp.status) <==> IsClientError(resp)
    ensures !Fault(resp.status) && !Refusal(resp.status) <==> Proceeds(resp)
  {
  }

  // ---- On every run ----

  /** Built from the cursor the cycle began with, as it was or shrunk once. */
  predicate Asks(e: Setup, from: Cursor, req: Request) {
    req == e.adapter.build(from) || req == e.adapter.build(e.policy.adjust(from, false))
  }

  /** The engine's requests number lo, ..., hi - 1 were such requests, and all met a fault. */
  ghost predicate Faults(e: Setup, from: Cursor, lo: int, hi: int) {
    forall k: nat :: lo <= k < hi ==> FaultAt(e, from, k)
  }

  ghost predicate FaultAt(e: Setup, from: Cursor, k: nat) {
    exists req :: Asks(e, from, req) && Fault(e.transport(k, req).status)
  }

  /** What a cycle of that many requests returns, the last of them answered by `resp`. */
  ghost predicate EndsAs(e: Setup, sent: nat, resp: Response, r: Result) {
    if Fault(resp.status) then
      if sent <= e.policy.maxRetries then r == Failed(CANCELLED)
      else r == Failed(Report(resp.status)) || (resp.status == 0 && r == Failed(CANCELLED))
    else if Refusal(resp.status) then r == Failed(CLIENT)
    else ReadAs(e, resp.body, r)
  }

  /** The body was read as that batch, or could not be read. */
  ghost predicate ReadAs(e: Setup, body: Option<Json>, r: Result) {
    exists st ::
      r == match e.adapter.parse(st, body).1 case Some(b) => Yielded(b) case None => Failed(PARSE)
  }

  /** The engine's request number n - 1 was the cycle's last; its answer explains the result. */
  ghost predicate LastExplains(e: Setup, f: Fetch, n: nat, r: Result) {
    && 0 < f.sent <= n && Faults(e, f.from, n - f.sent, n - 1)
    && exists req :: Asks(e, f.from, req) && EndsAs(e, f.sent, e.transport(n - 1, req), r)
  }

  /** The result of a finished cycle: a refusal at the door if nothing was sent, else what its last
      answer makes of it, all answers before having been faults. */
  ghost predicate Explained(e: Setup, f: Fetch, n: nat)
    requires f.pc.Returned?
  {
    var r := f.pc.result;
    if f.sent == 0 then
      r == Failed(EXHAUSTED) || r == Failed(CANCELLED) || r == Failed(BUDGET_EXHAUSTED)
    else LastExplains(e, f, n, r) && (r.error != CANCELLED ==> f.retry == f.sent - 1)
  }

  ghost predicate InHand(e: Setup, f: Fetch, n: nat, req: Request, resp: Response) {
    && f.sent == f.retry + 1 && f.sent <= n && Faults(e, f.from, n - f.sent, n - 1)
    && Asks(e, f.from, req) && resp == e.transport(n - 1, req)
  }

  /** The same for a cycle under way, the engine having sent n requests. */
  ghost predicate Told(e: Setup, f: Fetch, n: nat) {
    match f.pc
    case Loop => f.sent == f.retry <= n && Faults(e, f.from, n - f.sent, n)
    case Send => f.sent == f.retry <= n && Faults(e, f.from, n - f.sent, n)
    case Handle(req, resp) => InHand(e, f, n, req, resp)
    case Parse(req, resp) =>
      InHand(e, f, n, req, resp) && !Fault(resp.status) && !Refusal(resp.status)
    case Advance(_, b) => f.sent == f.retry + 1 && LastExplains(e, f, n, Yielded(b))
    case Charge(b) => f.sent == f.retry + 1 && LastExplains(e, f, n, Yielded(b))
    case Finish(b) => f.sent == f.retry + 1 && LastExplains(e, f, n, Yielded(b))
    case Returned(r) => Explained(e, f, n)
    case _ => f.sent == f.retry == 0
  }

  /** Until it advances, the cursor is where the cycle found it, but for one shrink. */
  predicate Seen(e: Setup, f: Fetch, c: Core) {
    f.pc.Entry? || BeforeAdvance(f.pc) ==>
      c.cursor == if f.saw429 then e.policy.adjust(f.from, false) else f.from
  }

  predicate Within(e: Setup, f: Fetch) { f.retry <= e.policy.maxRetries }

  lemma OneMoreFault(e: Setup, f: Fetch, n: nat, req: Request, resp: Response)
    requires InHand(e, f, n, req, resp) && Fault(resp.status)
    ensures Faults(e, f.from, n - f.sent, n)
  {
    forall k: nat | n - f.sent <= k < n
      ensures FaultAt(e, f.from, k)
    {
      if k == n - 1 { assert Asks(e, f.from, req) && Fault(e.transport(k, req).status); }
    }
  }

  lemma LastSays(e: Setup, f: Fetch, n: nat, req: Request, resp: Response, r: Result)
    requires InHand(e, f, n, req, resp) && EndsAs(e, f.sent, resp, r)
    ensures LastExplains(e, f, n, r)
  {
    assert Asks(e, f.from, req) && EndsAs(e, f.sent, e.transport(n - 1, req), r);
  }

  /** The fetch cycle `g` is `f` one turn on, or ended as its last answer says. */
  ghost predicate Judged(e: Setup, f: Fetch, resp: Response, g: Fetch) {
    && g.sent == f.sent && g.from == f.from
    && match g.pc
       case Loop => Fault(resp.status) && g.retry == f.retry + 1 <= e.policy.maxRetries
       case Parse(req, resp') =>
         && !Fault(resp.status) && !Refusal(resp.status)
         && f.pc == Handle(req, resp) && resp' == resp && g.retry == f.retry
       case Returned(r) => EndsAs(e, f.sent, resp, r) && g.retry == f.retry
       case _ => false
  }

  lemma NetworkJudged(e: Setup, f: Fetch, c: Core)
    requires f.pc.Handle? && f.pc.resp.status == 0 && f.sent == f.retry + 1 && Within(e, f)
    ensures Judged(e, f, f.pc.resp, HandleNetwork(e, f, c).0)
  {
  }

  lemma RetryableJudged(e: Setup, f: Fetch, c: Core)
    requires f.pc.Handle? && f.pc.resp.status != 0 && IsRetryable(f.pc.resp)
    requires f.sent == f.retry + 1 && Within(e, f)
    ensures Judged(e, f, f.pc.resp, HandleRetryable(e, f, c, f.pc.resp).0)
  {
  }

  lemma HandleJudged(e: Setup, f: Fetch, c: Core)
    requires f.pc.Handle? && f.sent == f.retry + 1 && Within(e, f)
    ensures Judged(e, f, f.pc.resp, HandleError(e, f, c).0)
  {
    StatusesByNumber(f.pc.resp);
    if f.pc.resp.status == 0 { NetworkJudged(e, f, c); }
    else if IsRetryable(f.pc.resp) { RetryableJudged(e, f, c); }
  }

  lemma HandleTold(e: Setup, f: Fetch, c: Core, n: nat)
    requires f.pc.Handle? && Told(e, f, n) && Within(e, f)
    ensures Told(e, HandleError(e, f, c).0, n) && Within(e, HandleError(e, f, c).0)
  {
    HandleJudged(e, f, c);
    JudgedTold(e, f, n, HandleError(e, f, c).0);
  }

  lemma JudgedTold(e: Setup, f: Fetch, n: nat, g: Fetch)
    requires f.pc.Handle? && Told(e, f, n) && Within(e, f) && Judged(e, f, f.pc.resp, g)
    ensures Told(e, g, n) && Within(e, g)
  {
    var req, resp := f.pc.req, f.pc.resp;
    if g.pc.Loop? { OneMoreFault(e, f, n, req, resp); }
    if g.pc.Returned? { LastSays(e, f, n, req, resp, g.pc.result); }
  }

  lemma SendTold(e: Setup, f: Fetch, c: Core)
    requires f.pc.Send? && Told(e, f, c.metrics.requests) && Seen(e, f, c) && Within(e, f)
    ensures var (g, d) := SendRequest(e, f, c);
            Told(e, g, d.metrics.requests) && Within(e, g)
  {
    assert Asks(e, f.from, e.adapter.build(c.cursor));
  }

  lemma ParseTold(e: Setup, f: Fetch, c: Core, n: nat)
    requires f.pc.Parse? && Told(e, f, n) && Within(e, f)
    ensures Told(e, ParseResponse(e, f, c).0, n) && Within(e, ParseResponse(e, f, c).0)
  {
    var (st, batch) := e.adapter.parse(c.adapter, f.pc.resp.body);
    var r := match batch case Some(b) => Yielded(b) case None => Failed(PARSE);
    assert ReadAs(e, f.pc.resp.body, r);
    LastSays(e, f, n, f.pc.req, f.pc.resp, r);
  }

  /** A cycle cancelled in its loop: all its answers were faults, and a try was left. */
  lemma CancelledTold(e: Setup, f: Fetch, n: nat)
    requires f.pc.Loop? && Told(e, f, n) && Within(e, f)
    ensures Told(e, f.(pc := Returned(Failed(CANCELLED))), n)
  {
    if f.sent > 0 {
      assert FaultAt(e, f.from, n - 1);
      var req :| Asks(e, f.from, req) && Fault(e.transport(n - 1, req).status);
      assert EndsAs(e, f.sent, e.transport(n - 1, req), Failed(CANCELLED));
    }
  }

  lemma OtherTold(e: Setup, f: Fetch, c: Core)
    requires Running(f) && !f.pc.Handle? && !f.pc.Send? && !f.pc.Parse?
    requires Told(e, f, c.metrics.requests) && Within(e, f)
    ensures var (g, d) := Step(e, f, c); Told(e, g, d.metrics.requests) && Within(e, g)
  {
    if f.pc.Loop? { CancelledTold(e, f, c.metrics.requests); }
  }

  lemma SeenStep(e: Setup, f: Fetch, c: Core)
    requires Running(f) && Seen(e, f, c)
    ensures var (g, d) := Step(e, f, c); Seen(e, g, d)
  {
    if f.pc.Handle? { HandleEffect(e, f, c); } else if !f.pc.Advance? { CursorUntouched(e, f, c); }
  }

  lemma AnswerTold(e: Setup, f: Fetch, c: Core)
    requires f.pc.Handle? || f.pc.Send? || f.pc.Parse?
    requires Told(e, f, c.metrics.requests) && Seen(e, f, c) && Within(e, f)
    ensures var (g, d) := Step(e, f, c); Told(e, g, c.metrics.requests + g.sent - f.sent) && Within(e, g)
  {
    match f.pc
    case Handle(_, _) => SentByHandle(e, f, c); HandleTold(e, f, c, c.metrics.requests);
    case Send => SendTold(e, f, c);
    case Parse(_, _) => ParseTold(e, f, c, c.metrics.requests);
  }

  lemma ToldStep(e: Setup, f: Fetch, c: Core)
    requires Running(f) && Told(e, f, c.metrics.requests) && Seen(e, f, c) && Within(e, f)
    ensures var (g, d) := Step(e, f, c); Told(e, g, d.metrics.requests) && Within(e, g)
  {
    SentByStep(e, f, c);
    if f.pc.Handle? || f.pc.Send? || f.pc.Parse? { AnswerTold(e, f, c); } else { OtherTold(e, f, c); }
  }

  /** Every cycle, the requests of the i-th ending with the engine's request number
      Sent(fetches[..i + 1]) - 1. */
  ghost predicate LaneTold(e: Setup, l: Lane) {
    && l.core.metrics.requests == Sent(l.fetches)
    && (forall i :: 0 <= i < |l.fetches| ==> Told(e, l.fetches[i], Sent(l.fetches[..i + 1])))
    && (l.fetches != [] ==> Seen(e, Last(l), l.core) && Within(e, Last(l)))
  }

  /** The earlier cycles keep what was told of them, whatever becomes of the last. */
  lemma EarlierTold(e: Setup, fetches: seq<Fetch>, longer: seq<Fetch>, n: nat)
    requires n <= |fetches| && n <= |longer| && fetches[..n] == longer[..n]
    requires forall i :: 0 <= i < n ==> Told(e, fetches[i], Sent(fetches[..i + 1]))
    ensures forall i :: 0 <= i < n ==> Told(e, longer[i], Sent(longer[..i + 1]))
  {
    forall i | 0 <= i < n
      ensures Told(e, longer[i], Sent(longer[..i + 1]))
    {
      assert longer[..i + 1] == longer[..n][..i + 1] == fetches[..i + 1];
      assert longer[i] == longer[..n][i] == fetches[i];
    }
  }

  lemma StepLaneTold(e: Setup, l: Lane)
    requires LaneTold(e, l) && !Quiet(l)
    requires StepFetch(e, l).core.metrics.requests == Sent(StepFetch(e, l).fetches)
    ensures LaneTold(e, StepFetch(e, l))
  {
    var l', n := StepFetch(e, l), |l.fetches| - 1;
    assert l.fetches[..n + 1] == l.fetches && l'.fetches[..n + 1] == l'.fetches;
    ToldStep(e, Last(l), l.core);
    SeenStep(e, Last(l), l.core);
    EarlierTold(e, l.fetches, l'.fetches, n);
  }

  lemma BeginLaneTold(e: Setup, l: Lane)
    requires LaneTold(e, l) && Quiet(l)
    ensures LaneTold(e, BeginFetch(l))
  {
    var l', n := BeginFetch(l), |l.fetches|;
    SentOneMore(l.fetches, Begin(l.core));
    assert l'.fetches[..n + 1] == l'.fetches;
    EarlierTold(e, l.fetches, l'.fetches, n);
  }

  lemma FlagLaneTold(e: Setup, l: Lane, t: Tick)
    requires LaneTold(e, l) && (t.CancelTick? || t.DoneTick?)
    ensures LaneTold(e, Play1(e, l, t))
  {
    assert Play1(e, l, t).fetches == l.fetches;
  }

  lemma TickLaneTold(e: Setup, l: Lane, t: Tick)
    requires LaneTold(e, l) && Play1(e, l, t).core.metrics.requests == Sent(Play1(e, l, t).fetches)
    ensures LaneTold(e, Play1(e, l, t))
  {
    match t
    case StepTick => if !Quiet(l) { StepLaneTold(e, l); }
    case BeginTick => if Quiet(l) { BeginLaneTold(e, l); }
    case _ => FlagLaneTold(e, l, t);
  }

  /** On every run, whatever is cancelled: a finished cycle that sent anything met faults only, but
      for its last answer, and that answer decides the result. NETWORK, RATE_LIMIT and SERVER take
      max_retries + 1 requests, CLIENT a refusal, PARSE an unreadable answer. */
  lemma {:induction false} AnswersDecide(e: Setup, ticks: seq<Tick>)
    ensures LaneTold(e, Play(e, ticks))
  {
    if ticks != [] {
      AnswersDecide(e, ticks[..|ticks| - 1]);
      SentCounts(e, ticks);
      TickLaneTold(e, Play(e, ticks[..|ticks| - 1]), ticks[|ticks| - 1]);
    }
  }

  /** Once the flag is set a request that got no answer is not tried again: the cycle ends CANCELLED,
      and nothing is counted or slept. */
  lemma NoAnswerOnceCancelled(e: Setup, ticks: seq<Tick>)
    requires var l := Play(e, ticks);
             && l.fetches != [] && l.core.cancelled
             && Last(l).pc.Handle? && Last(l).pc.resp.status == 0
    ensures var l, l' := Play(e, ticks), Play(e, ticks + [StepTick]);
            && Last(l').pc == Returned(Failed(CANCELLED)) && Last(l').naps == Last(l).naps
            && l'.core.metrics == l.core.metrics
  {
    assert (ticks + [StepTick])[..|ticks|] == ticks;
  }

  // ---- A cycle that nobody disturbs ----

  /** The answer to the cycle's i-th request, the cycle beginning from this core. */
  function NthAnswer(e: Setup, c: Core, i: nat): Response
    decreases i, 2
  {
    e.transport(c.metrics.requests + i, NthRequest(e, c, i))
  }

  /** That request: the window is shrunk once a 429 was met. */
  function NthRequest(e: Setup, c: Core, i: nat): Request
    decreases i, 1
  {
    if Limited(e, c, i) then e.adapter.build(e.policy.adjust(c.cursor, false))
    else e.adapter.build(c.cursor)
  }

  /** One of the first i answers was a 429. */
  predicate Limited(e: Setup, c: Core, i: nat)
    decreases i, 0
  {
    i > 0 && (Limited(e, c, i - 1) || NthAnswer(e, c, i - 1).status == 429)
  }

  /** The pause after the i-th answer: what Retry-After says, if the server answered and it can be
      honoured, else the i-th backoff. */
  function NthPause(e: Setup, c: Core, i: nat): Nap {
    var resp := NthAnswer(e, c, i);
    match if resp.status == 0 then None else RetryAfter(resp)
    case Some(secs) => Nap(secs * 1000, true)
    case None => Nap(e.policy.backoff(i, e.jitter(c.metrics.requests + i + 1)), false)
  }

  function Pauses(e: Setup, c: Core, j: nat): seq<Nap> {
    if j == 0 then [] else Pauses(e, c, j - 1) + [NthPause(e, c, j - 1)]
  }

  /** Back in the loop after i faults. */
  predicate AfterFaults(e: Setup, c: Core, i: nat, f: Fetch, d: Core) {
    && f.pc.Loop? && f.retry == f.sent == i && f.saw429 == Limited(e, c, i)
    && f.naps == Pauses(e, c, i)
    && d == c.(cursor := if Limited(e, c, i) then e.policy.adjust(c.cursor, false) else c.cursor,
               metrics := c.metrics.(requests := c.metrics.requests + i,
                                     retries := c.metrics.retries + i))
  }

  /** One answer, from the loop to where error handling leads. */
  lemma MeetsAnswer(e: Setup, c: Core, i: nat, f: Fetch, d: Core) returns (g: Fetch)
    requires AfterFaults(e, c, i, f, d) && !c.cancelled
    ensures g == f.(pc := Handle(NthRequest(e, c, i), NthAnswer(e, c, i)), sent := i + 1)
    ensures RunFetch(e, f, d) == RunFetch(e, g, Counted(d))
  {
    SendsRequest(e, f, d);
    g := f.(pc := Handle(NthRequest(e, c, i), NthAnswer(e, c, i)), sent := i + 1);
  }

  lemma FaultIsRetried(e: Setup, c: Core, i: nat, g: Fetch, d: Core)
    requires g.pc == Handle(NthRequest(e, c, i), NthAnswer(e, c, i)) && g.sent == i + 1
    requires AfterFaults(e, c, i, g.(pc := Loop, sent := i), d) && !c.cancelled
    requires Fault(NthAnswer(e, c, i).status) && i < e.policy.maxRetries
    ensures var (h, d') := Step(e, g, Counted(d)); AfterFaults(e, c, i + 1, h, d')
  {
    var resp := NthAnswer(e, c, i);
    StatusesByNumber(resp);
    if resp.status == 0 { NetworkRetried(e, c, i, g, d); } else { RetryableRetried(e, c, i, g, d); }
  }

  lemma NetworkRetried(e: Setup, c: Core, i: nat, g: Fetch, d: Core)
    requires g.pc == Handle(NthRequest(e, c, i), NthAnswer(e, c, i)) && g.sent == i + 1
    requires AfterFaults(e, c, i, g.(pc := Loop, sent := i), d) && !c.cancelled
    requires NthAnswer(e, c, i).status == 0 && i < e.policy.maxRetries
    ensures var (h, d') := HandleNetwork(e, g, Counted(d)); AfterFaults(e, c, i + 1, h, d')
  {
  }

  /** All that the first 429 changes before the cycle is judged. */
  lemma PressureOnly(e: Setup, f: Fetch, c: Core, resp: Response)
    ensures var (g, d) := Pressure(e, f, c, resp);
            var limited := resp.status == 429;
            && g == f.(saw429 := f.saw429 || limited)
            && d == c.(cursor := if limited && !f.saw429 then e.policy.adjust(c.cursor, false)
                                 else c.cursor)
  {
  }

  lemma PauseIsStated(e: Setup, c: Core, i: nat, g: Fetch, d: Core)
    requires g.retry == i && d.metrics.requests == c.metrics.requests + i + 1
    requires NthAnswer(e, c, i).status != 0
    ensures RetryNap(e, g, d, NthAnswer(e, c, i)) == NthPause(e, c, i)
  {
  }

  lemma RetryableRetried(e: Setup, c: Core, i: nat, g: Fetch, d: Core)
    requires g.pc == Handle(NthRequest(e, c, i), NthAnswer(e, c, i)) && g.sent == i + 1
    requires AfterFaults(e, c, i, g.(pc := Loop, sent := i), d) && !c.cancelled
    requires NthAnswer(e, c, i).status != 0 && i < e.policy.maxRetries
    ensures var (h, d') := HandleRetryable(e, g, Counted(d), NthAnswer(e, c, i));
            AfterFaults(e, c, i + 1, h, d')
  {
    var resp := NthAnswer(e, c, i);
    PressureOnly(e, g, Counted(d), resp);
    var (g', d') := Pressure(e, g, Counted(d), resp);
    PauseIsStated(e, c, i, g', d');
    assert HandleRetryable(e, g, Counted(d), resp) == Retry(g', d', NthPause(e, c, i));
  }

  /** Faults bring the cycle back to its loop as long as a try is left. */
  lemma {:induction false} FaultsAreRetried(e: Setup, c: Core, i: nat)
    returns (f: Fetch, d: Core)
    requires Admitted(e, c) && i <= e.policy.maxRetries
    requires forall k :: 0 <= k < i ==> Fault(NthAnswer(e, c, k).status)
    ensures AfterFaults(e, c, i, f, d) && RunFetch(e, Begin(c), c) == RunFetch(e, f, d)
  {
    if i == 0 {
      ReachesLoop(e, c);
      return Begin(c).(pc := Loop), c;
    }
    var f0, d0 := FaultsAreRetried(e, c, i - 1);
    var g := MeetsAnswer(e, c, i - 1, f0, d0);
    FaultIsRetried(e, c, i - 1, g, d0);
    RunOn(e, g, Counted(d0));
    f, d := Step(e, g, Counted(d0)).0, Step(e, g, Counted(d0)).1;
  }

  /** The counters of a cycle that ended with its (j + 1)-th answer, a success apart. */
  function FailedCounters(m: Counters, j: nat, code: Code): Counters {
    var tried := m.(requests := m.requests + j + 1, retries := m.retries + j);
    match code
    case NETWORK => tried.(network := m.network + 1)
    case RATE_LIMIT => tried.(rateLimited := m.rateLimited + 1)
    case SERVER => tried.(server := m.server + 1)
    case CLIENT => tried.(client := m.client + 1)
    case PARSE => tried.(parse := m.parse + 1)
    case _ => tried
  }

  /** The answer that ends the cycle: the first that is no fault, or the last there may be. */
  predicate EndsWith(e: Setup, c: Core, j: nat) {
    && j <= e.policy.maxRetries
    && (forall i :: 0 <= i < j ==> Fault(NthAnswer(e, c, i).status))
    && (j == e.policy.maxRetries || !Fault(NthAnswer(e, c, j).status))
  }

  /** What it makes of the cycle. */
  function Outcome(e: Setup, c: Core, j: nat): Result {
    var resp := NthAnswer(e, c, j);
    if Fault(resp.status) then Failed(Report(resp.status))
    else if Refusal(resp.status) then Failed(CLIENT)
    else
      match e.adapter.parse(c.adapter, resp.body).1
      case Some(batch) => Yielded(batch)
      case None => Failed(PARSE)
  }

  /** Where a cycle that began from `c` has ended, with its (j + 1)-th answer. */
  predicate EndedBy(e: Setup, c: Core, j: nat, f: Fetch, d: Core) {
    var r, st := Outcome(e, c, j), e.adapter.parse(c.adapter, NthAnswer(e, c, j).body).0;
    && f.pc == Returned(r) && f.sent == j + 1 && f.retry == j && f.naps == Pauses(e, c, j)
    && if r.Ok() then
         && d.metrics == c.metrics.(requests := c.metrics.requests + j + 1,
                                    retries := c.metrics.retries + j,
                                    successes := c.metrics.successes + 1,
                                    records := c.metrics.records + 1,
                                    windowMs := d.cursor.Window())
         && d.log == c.log + [Accepted(NthRequest(e, c, j), r.batches[0], e.adapter.cost(st))]
       else
         d.metrics == FailedCounters(c.metrics, j, r.error) && d.log == c.log
  }

  lemma NoAnswerFails(e: Setup, c: Core, j: nat, g: Fetch, d: Core)
    requires EndsWith(e, c, j) && AfterFaults(e, c, j, g.(pc := Loop, sent := j), d) && !c.cancelled
    requires g.pc == Handle(NthRequest(e, c, j), NthAnswer(e, c, j)) && g.sent == j + 1
    requires NthAnswer(e, c, j).status == 0
    ensures var (h, d') := HandleNetwork(e, g, Counted(d)); EndedBy(e, c, j, h, d')
  {
  }

  lemma FaultFails(e: Setup, c: Core, j: nat, g: Fetch, d: Core)
    requires EndsWith(e, c, j) && AfterFaults(e, c, j, g.(pc := Loop, sent := j), d) && !c.cancelled
    requires g.pc == Handle(NthRequest(e, c, j), NthAnswer(e, c, j)) && g.sent == j + 1
    requires NthAnswer(e, c, j).status != 0 && Fault(NthAnswer(e, c, j).status)
    ensures var (h, d') := HandleRetryable(e, g, Counted(d), NthAnswer(e, c, j)); EndedBy(e, c, j, h, d')
  {
    PressureOnly(e, g, Counted(d), NthAnswer(e, c, j));
  }

  lemma RefusalFails(e: Setup, c: Core, j: nat, g: Fetch, d: Core)
    requires EndsWith(e, c, j) && AfterFaults(e, c, j, g.(pc := Loop, sent := j), d) && !c.cancelled
    requires g.pc == Handle(NthRequest(e, c, j), NthAnswer(e, c, j)) && g.sent == j + 1
    requires Refusal(NthAnswer(e, c, j).status)
    ensures var (h, d') := HandleError(e, g, Counted(d)); EndedBy(e, c, j, h, d')
  {
  }

  lemma FailsWith(e: Setup, c: Core, j: nat, g: Fetch, d: Core)
    requires EndsWith(e, c, j) && AfterFaults(e, c, j, g.(pc := Loop, sent := j), d) && !c.cancelled
    requires g.pc == Handle(NthRequest(e, c, j), NthAnswer(e, c, j)) && g.sent == j + 1
    requires !Proceeds(NthAnswer(e, c, j))
    ensures var (h, d') := HandleError(e, g, Counted(d)); EndedBy(e, c, j, h, d')
  {
    var resp := NthAnswer(e, c, j);
    StatusesByNumber(resp);
    if resp.status == 0 { NoAnswerFails(e, c, j, g, d); }
    else if Refusal(resp.status) { RefusalFails(e, c, j, g, d); }
    else { FaultFails(e, c, j, g, d); }
  }

  lemma UnreadableFails(e: Setup, c: Core, j: nat, g: Fetch, d: Core)
    requires AfterFaults(e, c, j, g.(pc := Loop, sent := j), d) && !c.cancelled
    requires g.pc == Parse(NthRequest(e, c, j), NthAnswer(e, c, j)) && g.sent == j + 1
    requires Proceeds(NthAnswer(e, c, j))
    requires e.adapter.parse(c.adapter, NthAnswer(e, c, j).body).1.None?
    ensures var (h, d') := ParseResponse(e, g, Counted(d)); EndedBy(e, c, j, h, d')
  {
    StatusesByNumber(NthAnswer(e, c, j));
  }

  /** From a readable answer in hand to the return. */
  lemma ReadableEnds(e: Setup, g: Fetch, c: Core, st: AdapterState, batch: Batch)
    requires g.pc.Parse? && e.adapter.parse(c.adapter, g.pc.resp.body) == (st, Some(batch))
    ensures var (h, d) := RunFetch(e, g, c);
            && h == g.(pc := Returned(Yielded(batch)))
            && d.log == c.log + [Accepted(g.pc.req, batch, e.adapter.cost(st))]
            && d.metrics == c.metrics.(successes := c.metrics.successes + 1,
                                       records := c.metrics.records + 1,
                                       windowMs := d.cursor.Window())
  {
    RunOn(e, g, c);
    var (g1, c1) := Step(e, g, c);
    RunOn(e, g1, c1);
    var (g2, c2) := Step(e, g1, c1);
    RunOn(e, g2, c2);
    var (g3, c3) := Step(e, g2, c2);
    RunOn(e, g3, c3);
  }

  /** An admitted cycle that nobody disturbs is decided by its answers: faults are retried while a
      try is left, after the pauses stated; the first other answer, or the last there may be, gives
      the result, the requests and retries made, and the counters. */
  lemma CycleOutcome(e: Setup, c: Core, j: nat)
    requires Admitted(e, c) && EndsWith(e, c, j)
    ensures var (f, d) := RunFetch(e, Begin(c), c); EndedBy(e, c, j, f, d)
  {
    var f, d := FaultsAreRetried(e, c, j);
    var g := MeetsAnswer(e, c, j, f, d);
    var resp := NthAnswer(e, c, j);
    RunOn(e, g, Counted(d));
    if !Proceeds(resp) {
      FailsWith(e, c, j, g, d);
    } else {
      ReadAnswer(e, c, j, f, d, g);
    }
  }

  lemma ReadAnswer(e: Setup, c: Core, j: nat, f: Fetch, d: Core, g: Fetch)
    requires AfterFaults(e, c, j, f, d) && !c.cancelled && Proceeds(NthAnswer(e, c, j))
    requires g == f.(pc := Handle(NthRequest(e, c, j), NthAnswer(e, c, j)), sent := j + 1)
    ensures var (h, d') := RunFetch(e, g, Counted(d)); EndedBy(e, c, j, h, d')
  {
    var resp := NthAnswer(e, c, j);
    StatusesByNumber(resp);
    RunOn(e, g, Counted(d));
    var h := g.(pc := Parse(NthRequest(e, c, j), resp));
    var (st, batch) := e.adapter.parse(c.adapter, resp.body);
    if batch.Some? {
      ReadableEnds(e, h, Counted(d), st, batch.value);
    } else {
      RunOn(e, h, Counted(d));
      UnreadableFails(e, c, j, h, d);
    }
  }

  /** In both modes and under every schedule, unless somebody cancels: the k-th call returns what the
      answers to its cycle say, the cycle being admitted and, in prefetch mode, begun. */
  lemma CallOutcome(e: Setup, acts: seq<Action>, k: nat, j: nat)
    requires !Exec(e, acts).lane.core.cancelled && k < |Exec(e, acts).returned|
    requires Enabled(e) ==> Live(e, k)
    requires var c := Sequential(e, k).core; Admitted(e, c) && EndsWith(e, c, j)
    ensures Exec(e, acts).returned[k].result == Outcome(e, Sequential(e, k).core, j)
  {
    var c := Sequential(e, k).core;
    CycleOutcome(e, c, j);
    assert Last(BeginFetch(Sequential(e, k))) == Begin(c);
    assert SequentialResult(e, k) == Outcome(e, c, j);
    if Enabled(e) { PrefetchRefinesSequential(e, acts, k); } else { InlineIsSequential(e, acts, k); }
  }
}
