/**
 Fault transparency. A server is a function from requests to pages; its page chain is what one
 gets by following next_cursor with nothing ever going wrong. Whatever faults the transport
 inserts, and whatever is cancelled, the engine accepts a prefix of that chain.
 */
module Chain {
  import opened Wire
  import opened Fetching

  // ---- What adapters and policies promise ----

  /** A successful parse forgets everything parsed before. */
  ghost predicate HistoryFree(a: Adapter) {
    forall st: AdapterState, body: Option<Json> ::
      && a.parse(st, body).1 == a.parse(FRESH_ADAPTER, body).1
      && (a.parse(st, body).1.Some? ==> a.parse(st, body) == a.parse(FRESH_ADAPTER, body))
  }

  /** Window changes never reach the requests, nor anything else in the next cursor. */
  ghost predicate WindowBlind(a: Adapter) {
    && (forall c: Cursor, x: int :: a.build(c.(end := x)) == a.build(c))
    && (forall st: AdapterState, c: Cursor, x: int ::
          a.next(st, c.(end := x)).(end := 0) == a.next(st, c).(end := 0))
  }

  /** The policy moves the window's end and nothing else. */
  ghost predicate KeepsKey(p: Policy) {
    forall c: Cursor, ok: bool :: p.adjust(c, ok) == c.(end := p.adjust(c, ok).end)
  }

  // ---- The fault-free chain ----

  type Server = Request -> Json

  /** The adapter's reading of the server's page for a cursor. */
  function Read(e: Setup, server: Server, c: Cursor): (AdapterState, Option<Batch>) {
    e.adapter.parse(FRESH_ADAPTER, Some(server(e.adapter.build(c))))
  }

  function Follow(e: Setup, server: Server, c: Cursor): Cursor {
    e.policy.adjust(e.adapter.next(Read(e, server, c).0, c), true)
  }

  function ChainCursor(e: Setup, server: Server, k: nat): Cursor {
    if k == 0 then e.initial else Follow(e, server, ChainCursor(e, server, k - 1))
  }

  function ChainBatch(e: Setup, server: Server, k: nat): Option<Batch> {
    Read(e, server, ChainCursor(e, server, k)).1
  }

  /** The chain is N pages long. */
  predicate ChainEnds(e: Setup, server: Server, N: nat) {
    && ChainCursor(e, server, N).exhausted
    && forall i: nat :: i < N ==> !ChainCursor(e, server, i).exhausted
  }

  // ---- Faults ----

  /** A response that would be accepted carries the server's page. Everything else is a fault:
      any network failure, 4xx, 5xx or 429, and any body the adapter cannot read. */
  predicate Honest(e: Setup, server: Server, req: Request, resp: Response) {
    Proceeds(resp) && e.adapter.parse(FRESH_ADAPTER, resp.body).1.Some?
    ==> resp.body == Some(server(req))
  }

  ghost predicate Faithful(e: Setup, server: Server) {
    forall n: nat, req: Request :: Honest(e, server, req, e.transport(n, req))
  }

  ghost predicate NeverLimited(e: Setup) {
    forall n: nat, req: Request :: !IsRateLimited(e.transport(n, req))
  }

  /** The hypotheses under which the engine's windows do not matter to what it reads: either the
      adapter is blind to them, or no 429 ever shrinks one. */
  ghost predicate Transparent(e: Setup, server: Server, blind: bool) {
    && HistoryFree(e.adapter) && KeepsKey(e.policy) && Faithful(e, server)
    && (if blind then WindowBlind(e.adapter) else NeverLimited(e))
  }

  predicate Same(blind: bool, c: Cursor, d: Cursor) {
    if blind then c.(end := 0) == d.(end := 0) else c == d
  }

  // ---- The invariant ----

  predicate LogOnChain(e: Setup, server: Server, log: seq<Accepted>) {
    forall i :: 0 <= i < |log| ==>
      && log[i].req == e.adapter.build(ChainCursor(e, server, i))
      && Some(log[i].batch) == ChainBatch(e, server, i)
      && !ChainCursor(e, server, i).exhausted
  }

  /** The request under way is the chain's next one, and `next` will read its very parse. */
  predicate RequestOnChain(e: Setup, server: Server, blind: bool, f: Fetch, c: Core) {
    var here := ChainCursor(e, server, |c.log|);
    match f.pc
    case Handle(req, resp) =>
      && req == e.adapter.build(here) && Honest(e, server, req, resp)
      && (blind || !IsRateLimited(resp))
    case Parse(req, resp) =>
      req == e.adapter.build(here) && Honest(e, server, req, resp) && Proceeds(resp)
    case Advance(req, batch) =>
      req == e.adapter.build(here) && (c.adapter, Some(batch)) == Read(e, server, here)
    case _ => true
  }

  predicate OnChain(e: Setup, server: Server, blind: bool, f: Fetch, c: Core) {
    && LogOnChain(e, server, c.log)
    && Same(blind, c.cursor, ChainCursor(e, server, |c.log|))
    && (BeforeAdvance(f.pc) ==> !c.cursor.exhausted)
    && RequestOnChain(e, server, blind, f, c)
    && (f.saw429 ==> blind)
  }

  /** Two cursors that agree up to the window's end give the same request and, with the same
      parse, agree again afterwards. */
  lemma BlindTwins(a: Adapter, st: AdapterState, c: Cursor, d: Cursor)
    requires WindowBlind(a) && c.(end := 0) == d.(end := 0)
    ensures a.build(c) == a.build(d)
    ensures a.next(st, c).(end := 0) == a.next(st, d).(end := 0)
  {
    assert a.build(c.(end := 0)) == a.build(c) && a.build(d.(end := 0)) == a.build(d);
    assert a.next(st, c.(end := 0)).(end := 0) == a.next(st, c).(end := 0);
    assert a.next(st, d.(end := 0)).(end := 0) == a.next(st, d).(end := 0);
  }

  lemma SendOnChain(e: Setup, server: Server, blind: bool, f: Fetch, c: Core)
    requires Transparent(e, server, blind) && OnChain(e, server, blind, f, c) && f.pc.Send?
    ensures var (f', c') := SendRequest(e, f, c); OnChain(e, server, blind, f', c')
  {
    if blind { BlindTwins(e.adapter, c.adapter, c.cursor, ChainCursor(e, server, |c.log|)); }
  }

  lemma HandleOnChain(e: Setup, server: Server, blind: bool, f: Fetch, c: Core)
    requires Transparent(e, server, blind) && OnChain(e, server, blind, f, c) && f.pc.Handle?
    ensures var (f', c') := HandleError(e, f, c); OnChain(e, server, blind, f', c')
  {
    var (f', c') := HandleError(e, f, c);
    var shrunk := e.policy.adjust(c.cursor, false);
    HandleEffect(e, f, c);
    assert shrunk == c.cursor.(end := shrunk.end);
  }

  lemma ParseOnChain(e: Setup, server: Server, blind: bool, f: Fetch, c: Core)
    requires Transparent(e, server, blind) && OnChain(e, server, blind, f, c) && f.pc.Parse?
    ensures var (f', c') := ParseResponse(e, f, c); OnChain(e, server, blind, f', c')
  {
    var body := f.pc.resp.body;
    assert e.adapter.parse(c.adapter, body).1 == e.adapter.parse(FRESH_ADAPTER, body).1;
  }

  lemma AdvanceOnChain(e: Setup, server: Server, blind: bool, f: Fetch, c: Core)
    requires Transparent(e, server, blind) && OnChain(e, server, blind, f, c) && f.pc.Advance?
    ensures var (f', c') := AdvanceCursor(e, f, c); OnChain(e, server, blind, f', c')
  {
    var here := ChainCursor(e, server, |c.log|);
    var mine, theirs := e.adapter.next(c.adapter, c.cursor), e.adapter.next(c.adapter, here);
    if blind { BlindTwins(e.adapter, c.adapter, c.cursor, here); }
    assert e.policy.adjust(mine, true) == mine.(end := e.policy.adjust(mine, true).end);
    assert e.policy.adjust(theirs, true) == theirs.(end := e.policy.adjust(theirs, true).end);
    assert ChainCursor(e, server, |c.log| + 1) == e.policy.adjust(theirs, true);
  }

  lemma OnChainFrame(
    e: Setup, server: Server, blind: bool, f: Fetch, c: Core, f': Fetch, c': Core)
    requires OnChain(e, server, blind, f, c)
    requires c'.cursor == c.cursor && c'.log == c.log && f'.saw429 == f.saw429
    requires !f'.pc.Handle? && !f'.pc.Parse? && !f'.pc.Advance?
    requires BeforeAdvance(f'.pc) ==> !c.cursor.exhausted
    ensures OnChain(e, server, blind, f', c')
  {
  }

  lemma OnChainStep(e: Setup, server: Server, blind: bool, f: Fetch, c: Core)
    requires Transparent(e, server, blind) && OnChain(e, server, blind, f, c) && Running(f)
    ensures OnChain(e, server, blind, Step(e, f, c).0, Step(e, f, c).1)
  {
    if f.pc.Send? {
      SendOnChain(e, server, blind, f, c);
    } else if f.pc.Handle? {
      HandleOnChain(e, server, blind, f, c);
    } else if f.pc.Parse? {
      ParseOnChain(e, server, blind, f, c);
    } else if f.pc.Advance? {
      AdvanceOnChain(e, server, blind, f, c);
    } else {
      CursorUntouched(e, f, c);
      OnChainFrame(e, server, blind, f, c, Step(e, f, c).0, Step(e, f, c).1);
    }
  }

  predicate LaneOnChain(e: Setup, server: Server, blind: bool, l: Lane) {
    if l.fetches == [] then l.core.cursor == e.initial && l.core.log == []
    else OnChain(e, server, blind, Last(l), l.core)
  }

  lemma LaneOnChainTick(e: Setup, server: Server, blind: bool, l: Lane, t: Tick)
    requires LaneOnChain(e, server, blind, l) && !t.StepTick?
    ensures LaneOnChain(e, server, blind, Play1(e, l, t))
  {
  }

  lemma {:induction false} LaneStaysOnChain(
    e: Setup, server: Server, blind: bool, ticks: seq<Tick>)
    requires Transparent(e, server, blind)
    ensures LaneOnChain(e, server, blind, Play(e, ticks))
  {
    if ticks != [] {
      var l, t := Play(e, ticks[..|ticks| - 1]), ticks[|ticks| - 1];
      LaneStaysOnChain(e, server, blind, ticks[..|ticks| - 1]);
      if !t.StepTick? {
        LaneOnChainTick(e, server, blind, l, t);
      } else if !Quiet(l) {
        OnChainStep(e, server, blind, Last(l), l.core);
      }
    }
  }

  /** Fault transparency: on every run, whatever faults are inserted and whatever is cancelled,
      the accepted requests and batches are a prefix of the fault-free page chain, and the
      cursor stands at the chain's next position. */
  lemma FaultTransparency(e: Setup, server: Server, blind: bool, ticks: seq<Tick>)
    requires Transparent(e, server, blind)
    ensures var c := Play(e, ticks).core;
            LogOnChain(e, server, c.log) && Same(blind, c.cursor, ChainCursor(e, server, |c.log|))
  {
    LaneStaysOnChain(e, server, blind, ticks);
  }

  // ---- What a failed fetch leaves behind ----

  /** Until the cursor advances, only the window's end may have moved. */
  predicate Framed(f: Fetch, c: Core) {
    f.pc.Charge? || f.pc.Finish? || IsOk(f) || c.cursor.(end := 0) == f.from.(end := 0)
  }

  lemma FramedStep(e: Setup, f: Fetch, c: Core)
    requires KeepsKey(e.policy) && Running(f) && Framed(f, c)
    ensures var (f', c') := Step(e, f, c); Framed(f', c')
  {
    var shrunk := e.policy.adjust(c.cursor, false);
    assert shrunk == c.cursor.(end := shrunk.end);
  }

  lemma {:induction false} FramedAlways(e: Setup, ticks: seq<Tick>)
    requires KeepsKey(e.policy)
    ensures var l := Play(e, ticks); l.fetches != [] ==> Framed(Last(l), l.core)
  {
    if ticks != [] {
      var l, t := Play(e, ticks[..|ticks| - 1]), ticks[|ticks| - 1];
      FramedAlways(e, ticks[..|ticks| - 1]);
      if t.StepTick? && !Quiet(l) { FramedStep(e, Last(l), l.core); }
    }
  }

  /** A fetch that does not return OK leaves page token, exhaustion, window start and extra
      metadata as it found them. */
  lemma FailureKeepsKey(e: Setup, ticks: seq<Tick>)
    requires KeepsKey(e.policy)
    requires var l := Play(e, ticks); l.fetches != [] && IsFailure(Last(l))
    ensures var l := Play(e, ticks); l.core.cursor.(end := 0) == Last(l).from.(end := 0)
  {
    FramedAlways(e, ticks);
  }

  // ---- What next_cursor reads ----

  /** Parsing `body`, whatever was parsed before, left this state and yielded this batch. */
  ghost predicate ParsedFrom(a: Adapter, body: Option<Json>, st': AdapterState, batch: Batch) {
    exists st :: a.parse(st, body) == (st', Some(batch))
  }

  /** The response in hand answers the latest request, and once parsed it is what the adapter
      holds until the cursor has advanced. */
  ghost predicate ReadsLatest(e: Setup, f: Fetch, c: Core) {
    var n := c.metrics.requests;
    match f.pc
    case Handle(req, resp) => n > 0 && resp == e.transport(n - 1, req)
    case Parse(req, resp) => n > 0 && resp == e.transport(n - 1, req) && Proceeds(resp)
    case Advance(req, batch) =>
      && n > 0 && Proceeds(e.transport(n - 1, req))
      && ParsedFrom(e.adapter, e.transport(n - 1, req).body, c.adapter, batch)
    case _ => true
  }

  lemma HandleReadsLatest(e: Setup, f: Fetch, c: Core)
    requires f.pc.Handle? && ReadsLatest(e, f, c)
    ensures var (f', c') := HandleError(e, f, c); ReadsLatest(e, f', c')
  {
    HandleEffect(e, f, c);
  }

  lemma ParseReadsLatest(e: Setup, f: Fetch, c: Core)
    requires f.pc.Parse? && ReadsLatest(e, f, c)
    ensures var (f', c') := ParseResponse(e, f, c); ReadsLatest(e, f', c')
  {
    var (f', c') := ParseResponse(e, f, c);
    assert f'.pc.Advance? ==>
        e.adapter.parse(c.adapter, f.pc.resp.body) == (c'.adapter, Some(f'.pc.batch));
  }

  lemma StepReadsLatest(e: Setup, f: Fetch, c: Core)
    requires Running(f) && ReadsLatest(e, f, c)
    ensures ReadsLatest(e, Step(e, f, c).0, Step(e, f, c).1)
  {
    if f.pc.Handle? { HandleReadsLatest(e, f, c); }
    else if f.pc.Parse? { ParseReadsLatest(e, f, c); }
  }

  /** On every run, with any adapter: when the cursor advances, next_cursor reads the parse of the
      very response just accepted, the answer to the latest request. */
  lemma {:induction false} NextReadsLatest(e: Setup, ticks: seq<Tick>)
    ensures var l := Play(e, ticks); l.fetches != [] ==> ReadsLatest(e, Last(l), l.core)
  {
    if ticks != [] {
      var l, t := Play(e, ticks[..|ticks| - 1]), ticks[|ticks| - 1];
      NextReadsLatest(e, ticks[..|ticks| - 1]);
      if t.StepTick? && !Quiet(l) { StepReadsLatest(e, Last(l), l.core); }
    }
  }
}
