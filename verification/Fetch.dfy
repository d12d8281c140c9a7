/**
 One fetch cycle of the engine as a step function, and the lane: fetch cycles run one after
 the other while another thread may cancel between any two steps.

 A step performs at most one access to state that another thread writes, so a schedule of
 steps and cancellations is an interleaving of the program's threads.
 */
module Fetching {
  import opened Wire
  import opened Decimal

  // ---- Strategy slots ----

  /** What an adapter keeps from the last response it parsed. */
  datatype AdapterState = AdapterState(lastParsed: Json, lastTokens: int)

  const FRESH_ADAPTER := AdapterState(Null, 0)

  /** VendorAdapter<JsonBatch>. `parse` overwrites the state and yields the batch, or None when
      parse_response returns false. */
  datatype Adapter = Adapter(
    build: Cursor -> Request,
    parse: (AdapterState, Option<Json>) -> (AdapterState, Option<Batch>),
    next: (AdapterState, Cursor) -> Cursor,
    cost: AdapterState -> Option<real>)

  /** ExecutionPolicy. `budget` is None for a policy whose cost hooks do nothing. */
  datatype Policy = Policy(
    adjust: (Cursor, bool) -> Cursor,
    backoff: (nat, Jitter) -> int,
    maxRetries: nat,
    prefetchDepth: nat,
    budget: Option<real>)

  /** Everything an engine is constructed with. The transport may answer anything, and its
      answer may depend on how many requests went before; likewise the jitter drawn. */
  datatype Setup = Setup(
    adapter: Adapter,
    policy: Policy,
    transport: (nat, Request) -> Response,
    jitter: nat -> Jitter,
    initial: Cursor)

  predicate BudgetExceeded(p: Policy, spent: real) {
    p.budget.Some? && p.budget.value > 0.0 && spent >= p.budget.value
  }

  function RecordCost(p: Policy, spent: real, cost: Option<real>): real {
    if p.budget.Some? && cost.Some? then spent + cost.value else spent
  }

  // ---- Engine state a fetch works on ----

  datatype Counters = Counters(
    requests: nat, retries: nat, successes: nat, rateLimited: nat, server: nat,
    client: nat, network: nat, parse: nat, records: nat, windowMs: int, cumulativeCost: real)

  const ZERO_COUNTERS := Counters(0, 0, 0, 0, 0, 0, 0, 0, 0, 0, 0.0)

  /** A response the engine accepted: the request it answered, its batch and its cost. */
  datatype Accepted = Accepted(req: Request, batch: Batch, cost: Option<real>)

  /** The fields of the engine, then three logs that no step reads: what was accepted so far,
      how many requests ended by cancellation, and how many began with the cancel flag set. */
  datatype Core = Core(
    cursor: Cursor, adapter: AdapterState, spent: real, metrics: Counters,
    cancelled: bool, done: bool,
    log: seq<Accepted>, aborted: nat, lateSends: nat)

  datatype Pc =
    | Entry | CheckCancel | CheckBudget | Loop | Send
    | Handle(req: Request, resp: Response)
    | Parse(req: Request, resp: Response)
    | Advance(req: Request, batch: Batch)
    | Charge(batch: Batch)
    | Finish(batch: Batch)
    | Returned(result: Result)

  /** A pause before a retry; `honoured` when its length came from Retry-After. */
  datatype Nap = Nap(ms: int, honoured: bool)

  /** The locals of fetch_one, then what it has done: the pauses slept, the requests sent, the
      cursor it began from, and whether it began with the cancel flag set. */
  datatype Fetch = Fetch(
    pc: Pc, retry: nat, saw429: bool, naps: seq<Nap>, sent: nat, from: Cursor, late: bool)

  function Begin(c: Core): Fetch { Fetch(Entry, 0, false, [], 0, c.cursor, c.cancelled) }

  predicate Running(f: Fetch) { !f.pc.Returned? }

  predicate IsOk(f: Fetch) { f.pc.Returned? && f.pc.result.Ok() }

  predicate IsFailure(f: Fetch) { f.pc.Returned? && !f.pc.result.Ok() }

  // ---- The steps ----

  function Return(f: Fetch, error: Code): Fetch { f.(pc := Returned(Failed(error))) }

  /** Sleep, count the retry and go round the loop again. */
  function Retry(f: Fetch, c: Core, nap: Nap): (Fetch, Core) {
    (f.(pc := Loop, retry := f.retry + 1, naps := f.naps + [nap]),
     c.(metrics := c.metrics.(retries := c.metrics.retries + 1)))
  }

  function BackoffNap(e: Setup, f: Fetch, c: Core): Nap {
    Nap(e.policy.backoff(f.retry, e.jitter(c.metrics.requests)), false)
  }

  /** A Retry-After wins over the backoff; it is clamped once more before the sleep. */
  function RetryNap(e: Setup, f: Fetch, c: Core, resp: Response): Nap {
    match RetryAfter(resp)
    case Some(secs) =>
      if secs > 0 then Nap(Min(secs, MAX_RETRY_AFTER_SECS) * MS_PER_SECOND, true)
      else BackoffNap(e, f, c)
    case None => BackoffNap(e, f, c)
  }

  /** The first 429 of a cycle shrinks the window; later ones leave it alone. */
  function Pressure(e: Setup, f: Fetch, c: Core, resp: Response): (Fetch, Core) {
    if IsRateLimited(resp) && !f.saw429
    then (f.(saw429 := true), c.(cursor := e.policy.adjust(c.cursor, false)))
    else (f, c)
  }

  function HandleNetwork(e: Setup, f: Fetch, c: Core): (Fetch, Core) {
    if c.cancelled then (Return(f, CANCELLED), c.(aborted := c.aborted + 1))
    else if f.retry < e.policy.maxRetries then Retry(f, c, BackoffNap(e, f, c))
    else (Return(f, NETWORK), c.(metrics := c.metrics.(network := c.metrics.network + 1)))
  }

  function HandleRetryable(e: Setup, f0: Fetch, c0: Core, resp: Response): (Fetch, Core) {
    var (f, c) := Pressure(e, f0, c0, resp);
    if f.retry < e.policy.maxRetries then Retry(f, c, RetryNap(e, f, c, resp))
    else if IsRateLimited(resp) then
      (Return(f, RATE_LIMIT), c.(metrics := c.metrics.(rateLimited := c.metrics.rateLimited + 1)))
    else
      (Return(f, SERVER), c.(metrics := c.metrics.(server := c.metrics.server + 1)))
  }

  function HandleError(e: Setup, f: Fetch, c: Core): (Fetch, Core)
    requires f.pc.Handle?
  {
    var resp := f.pc.resp;
    if resp.status == 0 then HandleNetwork(e, f, c)
    else if IsClientError(resp) then
      (Return(f, CLIENT), c.(metrics := c.metrics.(client := c.metrics.client + 1)))
    else if IsRetryable(resp) then HandleRetryable(e, f, c, resp)
    else (f.(pc := Parse(f.pc.req, resp)), c)
  }

  function SendRequest(e: Setup, f: Fetch, c: Core): (Fetch, Core) {
    var req := e.adapter.build(c.cursor);
    (f.(pc := Handle(req, e.transport(c.metrics.requests, req)), sent := f.sent + 1),
     c.(metrics := c.metrics.(requests := c.metrics.requests + 1),
        lateSends := if c.cancelled then c.lateSends + 1 else c.lateSends))
  }

  function ParseResponse(e: Setup, f: Fetch, c: Core): (Fetch, Core)
    requires f.pc.Parse?
  {
    var (state, batch) := e.adapter.parse(c.adapter, f.pc.resp.body);
    match batch
    case None =>
      (Return(f, PARSE),
       c.(adapter := state, metrics := c.metrics.(parse := c.metrics.parse + 1)))
    case Some(b) => (f.(pc := Advance(f.pc.req, b)), c.(adapter := state))
  }

  /** Under the cursor lock: advance, then grow the window unless a 429 was seen. */
  function AdvanceCursor(e: Setup, f: Fetch, c: Core): (Fetch, Core)
    requires f.pc.Advance?
  {
    var next := e.adapter.next(c.adapter, c.cursor);
    (f.(pc := Charge(f.pc.batch)),
     c.(cursor := if f.saw429 then next else e.policy.adjust(next, true),
        log := c.log + [Accepted(f.pc.req, f.pc.batch, e.adapter.cost(c.adapter))]))
  }

  function FinishFetch(f: Fetch, c: Core): (Fetch, Core)
    requires f.pc.Finish?
  {
    (f.(pc := Returned(Yielded(f.pc.batch))),
     c.(done := c.done || c.cursor.exhausted,
        metrics := c.metrics.(successes := c.metrics.successes + 1,
                              records := c.metrics.records + 1,
                              windowMs := c.cursor.Window())))
  }

  /** No step touches the cancel flag, nor what a fetch cycle remembers of its beginning. */
  function Step(e: Setup, f: Fetch, c: Core): (r: (Fetch, Core))
    requires Running(f)
    ensures r.1.cancelled == c.cancelled && r.0.late == f.late && r.0.from == f.from
  {
    match f.pc
    case Entry =>
      if c.cursor.exhausted then (Return(f, EXHAUSTED), c.(done := true))
      else (f.(pc := CheckCancel), c)
    case CheckCancel =>
      if c.cancelled then (Return(f, CANCELLED), c) else (f.(pc := CheckBudget), c)
    case CheckBudget =>
      if BudgetExceeded(e.policy, c.spent)
      then (Return(f, BUDGET_EXHAUSTED), c.(done := true))
      else (f.(pc := Loop), c)
    case Loop =>
      if c.cancelled then (Return(f, CANCELLED), c) else (f.(pc := Send), c)
    case Send => SendRequest(e, f, c)
    case Handle(_, _) => HandleError(e, f, c)
    case Parse(_, _) => ParseResponse(e, f, c)
    case Advance(_, _) => AdvanceCursor(e, f, c)
    case Charge(b) =>
      (f.(pc := Finish(b)),
       c.(spent := RecordCost(e.policy, c.spent, e.adapter.cost(c.adapter))))
    case Finish(_) => FinishFetch(f, c)
  }

  /** Past the entry check, and the cursor has not advanced. */
  predicate BeforeAdvance(pc: Pc) {
    pc.CheckCancel? || pc.CheckBudget? || pc.Loop? || pc.Send?
    || pc.Handle? || pc.Parse? || pc.Advance?
  }

  /** Only error handling and the advance touch the cursor. A request is built from the cursor as
      it stands, and the one parsed is the one sent. */
  lemma CursorUntouched(e: Setup, f: Fetch, c: Core)
    requires Running(f) && !f.pc.Handle? && !f.pc.Advance?
    ensures var (f', c') := Step(e, f, c);
            && c'.cursor == c.cursor && c'.log == c.log && f'.saw429 == f.saw429
            && (BeforeAdvance(f'.pc) ==> BeforeAdvance(f.pc) || (f.pc.Entry? && !c.cursor.exhausted))
            && (f'.pc.Handle? ==> f.pc.Send? && f'.pc.req == e.adapter.build(c.cursor))
            && (f'.pc.Advance? ==> f.pc.Parse? && f'.pc.req == f.pc.req) && !f'.pc.Parse?
  {
  }

  /** Error handling goes round the loop, to the parser, or out; it may shrink the window once,
      on a 429, and accepts nothing. */
  lemma HandleEffect(e: Setup, f: Fetch, c: Core)
    requires f.pc.Handle?
    ensures var (f', c') := HandleError(e, f, c);
            var limited := IsRateLimited(f.pc.resp);
            && c'.log == c.log && f'.saw429 == (f.saw429 || limited)
            && c'.cursor == (if limited && !f.saw429
                             then e.policy.adjust(c.cursor, false) else c.cursor)
            && (f'.pc.Loop? || (f'.pc.Returned? && !f'.pc.result.Ok())
                || (f'.pc == Parse(f.pc.req, f.pc.resp) && Proceeds(f.pc.resp)))
  {
  }

  // ---- The lane ----

  /** Every fetch cycle begun so far, in order, over the one shared core. */
  datatype Lane = Lane(core: Core, fetches: seq<Fetch>)

  function InitialCore(e: Setup): Core {
    Core(e.initial, FRESH_ADAPTER, 0.0, ZERO_COUNTERS, false, e.initial.exhausted, [], 0, 0)
  }

  function InitialLane(e: Setup): Lane { Lane(InitialCore(e), []) }

  /** No fetch cycle is under way. */
  predicate Quiet(l: Lane) { l.fetches == [] || !Running(l.fetches[|l.fetches| - 1]) }

  function Last(l: Lane): Fetch
    requires l.fetches != []
  {
    l.fetches[|l.fetches| - 1]
  }

  /** Begin a cycle, step the current one, or set either flag of cancel(). */
  datatype Tick = BeginTick | StepTick | CancelTick | DoneTick

  function BeginFetch(l: Lane): Lane { l.(fetches := l.fetches + [Begin(l.core)]) }

  function StepFetch(e: Setup, l: Lane): Lane
    requires !Quiet(l)
  {
    var (f, c) := Step(e, Last(l), l.core);
    Lane(c, l.fetches[|l.fetches| - 1 := f])
  }

  /** A tick that is not possible in a state leaves it unchanged. */
  function Play1(e: Setup, l: Lane, t: Tick): Lane {
    match t
    case BeginTick => if Quiet(l) then BeginFetch(l) else l
    case StepTick => if Quiet(l) then l else StepFetch(e, l)
    case CancelTick => l.(core := l.core.(cancelled := true))
    case DoneTick => l.(core := l.core.(done := true))
  }

  function Play(e: Setup, ticks: seq<Tick>): Lane {
    if ticks == [] then InitialLane(e)
    else Play1(e, Play(e, ticks[..|ticks| - 1]), ticks[|ticks| - 1])
  }

  /** How far a program point is from returning, within one turn of the retry loop. */
  function Rank(pc: Pc): nat {
    match pc
    case Entry => 10
    case CheckCancel => 9
    case CheckBudget => 8
    case Loop => 7
    case Send => 6
    case Handle(_, _) => 5
    case Parse(_, _) => 4
    case Advance(_, _) => 3
    case Charge(_) => 2
    case Finish(_) => 1
    case Returned(_) => 0
  }

  /** Every step gets closer to the return, or uses up a retry. */
  lemma StepDescends(e: Setup, f: Fetch, c: Core)
    requires Running(f)
    ensures var f' := Step(e, f, c).0;
            || (f'.retry == f.retry && Rank(f'.pc) < Rank(f.pc))
            || (f'.retry == f.retry + 1 && f.retry < e.policy.maxRetries)
  {
  }

  /** Run a fetch cycle to its return with nobody else interfering. The measure is the one of
      the retry loop: max_retries - retry_count. */
  function RunFetch(e: Setup, f: Fetch, c: Core): (r: (Fetch, Core))
    ensures !Running(r.0)
    decreases Max(0, e.policy.maxRetries - f.retry), Rank(f.pc)
  {
    if Running(f) then
      StepDescends(e, f, c);
      RunFetch(e, Step(e, f, c).0, Step(e, f, c).1)
    else (f, c)
  }

  /** Let the current fetch cycle of a lane run to its return. */
  function Complete(e: Setup, l: Lane): (r: Lane)
    ensures Quiet(r)
    ensures |r.fetches| == |l.fetches|
    ensures Quiet(l) ==> r == l
    ensures forall i :: 0 <= i < |l.fetches| - 1 ==> r.fetches[i] == l.fetches[i]
  {
    if Quiet(l) then l
    else
      var (f, c) := RunFetch(e, Last(l), l.core);
      Lane(c, l.fetches[|l.fetches| - 1 := f])
  }

  /** Nothing changes if its first step is taken separately. */
  lemma CompleteAfterStep(e: Setup, l: Lane)
    requires !Quiet(l)
    ensures Complete(e, StepFetch(e, l)) == Complete(e, l)
  {
    var (f, c) := Step(e, Last(l), l.core);
    var n := |l.fetches| - 1;
    assert RunFetch(e, Last(l), l.core) == RunFetch(e, f, c);
    var g := RunFetch(e, f, c).0;
    assert l.fetches[n := f][n := g] == l.fetches[n := g];
  }

  /** The sequential engine after n undisturbed calls of fetch_one. */
  function Sequential(e: Setup, n: nat): (l: Lane)
    ensures Quiet(l) && |l.fetches| == n
  {
    if n == 0 then InitialLane(e) else Complete(e, BeginFetch(Sequential(e, n - 1)))
  }

  /** What the k-th of them returned. */
  function SequentialResult(e: Setup, k: nat): Result {
    Last(Sequential(e, k + 1)).pc.result
  }
}
