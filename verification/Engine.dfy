/**
 The engine as the object it is: fields updated in place by fetch_one's retry loop while other
 threads call cancel(). Sequential mode; its methods are proved against the step functions.
 */
module Engine {
  import opened Wire
  import opened Decimal
  import opened Fetching
  import opened Interference
  import Prefetch
  import opened Schedules
  import opened Streams

  // ---- Metrics ----

  class Metrics {
    var requests: nat
    var retries: nat
    var successes: nat
    var rateLimited: nat
    var server: nat
    var client: nat
    var network: nat
    var parse: nat
    var records: nat
    var windowMs: int
    var cumulativeCost: real

    constructor ()
      ensures State() == ZERO_COUNTERS
    {
      requests, retries, successes, rateLimited, server := 0, 0, 0, 0, 0;
      client, network, parse, records, windowMs, cumulativeCost := 0, 0, 0, 0, 0, 0.0;
    }

    ghost function State(): Counters
      reads this
    {
      Counters(requests, retries, successes, rateLimited, server,
               client, network, parse, records, windowMs, cumulativeCost)
    }

    method IncRequest()
      modifies this
      ensures State() == old(State()).(requests := old(requests) + 1)
    {
      requests := requests + 1;
    }

    method IncRetry()
      modifies this
      ensures State() == old(State()).(retries := old(retries) + 1)
    {
      retries := retries + 1;
    }

    method IncSuccess()
      modifies this
      ensures State() == old(State()).(successes := old(successes) + 1)
    {
      successes := successes + 1;
    }

    method IncErrorRateLimit()
      modifies this
      ensures State() == old(State()).(rateLimited := old(rateLimited) + 1)
    {
      rateLimited := rateLimited + 1;
    }

    method IncErrorServer()
      modifies this
      ensures State() == old(State()).(server := old(server) + 1)
    {
      server := server + 1;
    }

    method IncErrorClient()
      modifies this
      ensures State() == old(State()).(client := old(client) + 1)
    {
      client := client + 1;
    }

    method IncErrorNetwork()
      modifies this
      ensures State() == old(State()).(network := old(network) + 1)
    {
      network := network + 1;
    }

    method IncErrorParse()
      modifies this
      ensures State() == old(State()).(parse := old(parse) + 1)
    {
      parse := parse + 1;
    }

    method AddRecords(n: nat)
      modifies this
      ensures State() == old(State()).(records := old(records) + n)
    {
      records := records + n;
    }

    method SetWindowSizeMs(ms: int)
      modifies this
      ensures State() == old(State()).(windowMs := ms)
    {
      windowMs := ms;
    }

    method SetCumulativeCost(cost: real)
      modifies this
      ensures State() == old(State()).(cumulativeCost := cost)
    {
      cumulativeCost := cost;
    }

    method Snapshot() returns (s: Counters)
      ensures s == State()
    {
      s := Counters(requests, retries, successes, rateLimited, server,
                    client, network, parse, records, windowMs, cumulativeCost);
    }
  }

  datatype Signal = Proceed | Again | Terminal(error: Code)

  class ExecutionEngine {
    const setup: Setup
    const others: Others
    const metrics: Metrics
    var cursor: Cursor
    var adapter: AdapterState
    var spent: real
    var cancelFlag: bool
    var streamDone: bool
    var naps: seq<Nap>
    var clock: nat
    ghost var log: seq<Accepted>
    ghost var aborted: nat
    ghost var lateSends: nat

    ghost function State(): Core
      reads this, metrics
    {
      Core(cursor, adapter, spent, metrics.State(), cancelFlag, streamDone, log, aborted, lateSends)
    }

    constructor (setup: Setup, others: Others)
      ensures fresh(metrics) && this.setup == setup && this.others == others
      ensures State() == InitialCore(setup) && naps == [] && clock == 0
      ensures !Prefetch.Enabled(setup) ==> Reached([])
    {
      this.setup, this.others := setup, others;
      metrics := new Metrics();
      cursor, adapter, spent := setup.initial, FRESH_ADAPTER, 0.0;
      cancelFlag, streamDone := false, setup.initial.exhausted;
      naps, clock, log, aborted, lateSends := [], 0, [], 0, 0;
    }

    /** Another thread may run here. */
    method Yield()
      modifies this`cancelFlag, this`streamDone, this`clock
      ensures State() == Meddle(old(State()), others(old(clock))) && clock == old(clock) + 1
    {
      var m := others(clock);
      if m.flag { cancelFlag := true; }
      if m.done && cancelFlag { streamDone := true; }
      clock := clock + 1;
    }

    method Sleep(nap: Nap)
      modifies this`naps
      ensures naps == old(naps) + [nap]
    {
      naps := naps + [nap];
    }

    method HandleNetworkError(retryCount: nat, ghost f: Fetch)
      returns (signal: Signal, retryCount': nat, ghost g: Fetch)
      requires f.pc.Handle? && f.retry == retryCount
      modifies this, metrics
      ensures (g, State()) == HandleNetwork(setup, f, old(State()))
      ensures signal == if cancelFlag then Terminal(CANCELLED)
                        else if retryCount < setup.policy.maxRetries then Again
                        else Terminal(NETWORK)
      ensures g.retry == retryCount' && clock == old(clock)
      ensures naps == old(naps) + g.naps[|f.naps|..] && f.naps <= g.naps
      ensures Signals(signal, f, g)
    {
      retryCount' := retryCount;
      g := HandleNetwork(setup, f, State()).0;
      if cancelFlag {
        aborted := aborted + 1;
        signal := Terminal(CANCELLED);
      } else if retryCount < setup.policy.maxRetries {
        Sleep(Nap(setup.policy.backoff(retryCount, setup.jitter(metrics.requests)), false));
        metrics.IncRetry();
        signal, retryCount' := Again, retryCount + 1;
      } else {
        metrics.IncErrorNetwork();
        signal := Terminal(NETWORK);
      }
    }

    method SleepBeforeRetry(resp: Response, retryCount: nat, ghost f: Fetch)
      requires f.retry == retryCount || f.retry == retryCount + 1
      modifies this`naps
      ensures naps == old(naps) + [RetryNap(setup, f.(retry := retryCount), State(), resp)]
    {
      var retryAfter := RetryAfter(resp);
      if retryAfter.Some? && retryAfter.value > 0 {
        Sleep(Nap(Min(retryAfter.value, MAX_RETRY_AFTER_SECS) * MS_PER_SECOND, true));
      } else {
        Sleep(Nap(setup.policy.backoff(retryCount, setup.jitter(metrics.requests)), false));
      }
    }

    method HandleRetryableError(resp: Response, retryCount: nat, sawRateLimit: bool, ghost f: Fetch)
      returns (signal: Signal, retryCount': nat, sawRateLimit': bool, ghost g: Fetch)
      requires f.pc.Handle? && f.pc.resp == resp && IsRetryable(resp)
      requires f.retry == retryCount && f.saw429 == sawRateLimit
      modifies this, metrics
      ensures (g, State()) == HandleRetryable(setup, f, old(State()), resp)
      ensures signal == if retryCount < setup.policy.maxRetries then Again
                        else Terminal(if resp.status == 429 then RATE_LIMIT else SERVER)
      ensures g.retry == retryCount' && g.saw429 == sawRateLimit' && clock == old(clock)
      ensures naps == old(naps) + g.naps[|f.naps|..] && f.naps <= g.naps
      ensures Signals(signal, f, g)
    {
      retryCount', sawRateLimit' := retryCount, sawRateLimit;
      g := HandleRetryable(setup, f, State(), resp).0;
      if IsRateLimited(resp) && !sawRateLimit {
        cursor := setup.policy.adjust(cursor, false);
        sawRateLimit' := true;
      }
      if retryCount < setup.policy.maxRetries {
        SleepBeforeRetry(resp, retryCount, g);
        metrics.IncRetry();
        signal, retryCount' := Again, retryCount + 1;
      } else if IsRateLimited(resp) {
        metrics.IncErrorRateLimit();
        signal := Terminal(RATE_LIMIT);
      } else {
        metrics.IncErrorServer();
        signal := Terminal(SERVER);
      }
    }

    /** handle_error, on a response just received. */
    method HandleResponse(resp: Response, retryCount: nat, sawRateLimit: bool, ghost f: Fetch)
      returns (signal: Signal, retryCount': nat, sawRateLimit': bool, ghost g: Fetch)
      requires f.pc.Handle? && f.pc.resp == resp
      requires f.retry == retryCount && f.saw429 == sawRateLimit
      modifies this, metrics
      ensures (g, State()) == HandleError(setup, f, old(State()))
      ensures g.retry == retryCount' && g.saw429 == sawRateLimit' && clock == old(clock)
      ensures naps == old(naps) + g.naps[|f.naps|..] && f.naps <= g.naps
      ensures Signals(signal, f, g)
    {
      retryCount', sawRateLimit' := retryCount, sawRateLimit;
      if resp.status == 0 {
        signal, retryCount', g := HandleNetworkError(retryCount, f);
      } else if IsClientError(resp) {
        g := Return(f, CLIENT);
        metrics.IncErrorClient();
        signal := Terminal(CLIENT);
      } else if IsRetryable(resp) {
        signal, retryCount', sawRateLimit', g :=
          HandleRetryableError(resp, retryCount, sawRateLimit, f);
      } else {
        g := f.(pc := Parse(f.pc.req, resp));
        signal := Proceed;
      }
    }

    /** The checks of fetch_one before its loop: the error it returns at once, if any. */
    method Admit(ghost path: Path, ghost f: Fetch) returns (refusal: Option<Code>, ghost g: Fetch)
      requires KeptBySteps(setup, others, path) && path(f, State(), clock) && f.pc.Entry?
      modifies this`cancelFlag, this`streamDone, this`clock
      ensures path(g, State(), clock)
      ensures g == f.(pc := if refusal.None? then Loop else Returned(Failed(refusal.value)))
      ensures refusal != Some(OK)
    {
      AtEntry(setup, others, path, f, State(), clock);
      Yield();
      if cursor.exhausted {
        streamDone := true;
        return Some(EXHAUSTED), Return(f, EXHAUSTED);
      }
      AtCheckCancel(setup, others, path, f.(pc := CheckCancel), State(), clock);
      Yield();
      if cancelFlag { return Some(CANCELLED), Return(f, CANCELLED); }
      AtCheckBudget(setup, others, path, f.(pc := CheckBudget), State(), clock);
      Yield();
      if BudgetExceeded(setup.policy, spent) {
        streamDone := true;
        return Some(BUDGET_EXHAUSTED), Return(f, BUDGET_EXHAUSTED);
      }
      return None, f.(pc := Loop);
    }

    /** The top of the loop: look at the flag, build a request from the cursor and send it. */
    method Attempt(ghost path: Path, ghost f: Fetch)
      returns (resp: Option<Response>, ghost g: Fetch)
      requires KeptBySteps(setup, others, path) && path(f, State(), clock) && f.pc.Loop?
      modifies this, metrics
      ensures path(g, State(), clock)
      ensures naps == old(naps) && g.naps == f.naps && g.retry == f.retry && g.saw429 == f.saw429
      ensures resp.None? ==> g.pc == Returned(Failed(CANCELLED))
      ensures resp.Some? ==> g.pc.Handle? && g.pc.resp == resp.value
    {
      AtLoop(setup, others, path, f, State(), clock);
      Yield();
      if cancelFlag { return None, Return(f, CANCELLED); }
      g := f.(pc := Send);
      AtSend(setup, others, path, g, State(), clock);
      Yield();
      g := SendRequest(setup, g, State()).0;
      var req := setup.adapter.build(cursor);
      resp := Some(setup.transport(metrics.requests, req));
      metrics.IncRequest();
      if cancelFlag { lateSends := lateSends + 1; }
    }

    /** Handle the response of an attempt. */
    method Judge(
      resp: Response, retryCount: nat, sawRateLimit: bool, ghost path: Path, ghost f: Fetch)
      returns (signal: Signal, retryCount': nat, sawRateLimit': bool, ghost g: Fetch)
      requires KeptBySteps(setup, others, path) && path(f, State(), clock)
      requires f.pc.Handle? && f.pc.resp == resp
      requires f.retry == retryCount && f.saw429 == sawRateLimit
      modifies this, metrics
      ensures path(g, State(), clock)
      ensures g.retry == retryCount' && g.saw429 == sawRateLimit'
      ensures f.naps <= g.naps && naps == old(naps) + g.naps[|f.naps|..]
      ensures Signals(signal, f, g)
      ensures signal.Again? ==> retryCount < retryCount' <= setup.policy.maxRetries
    {
      AtHandle(setup, others, path, f, State(), clock);
      Yield();
      signal, retryCount', sawRateLimit', g := HandleResponse(resp, retryCount, sawRateLimit, f);
    }

    /** next_cursor and adjust, under the cursor lock. */
    method Advance(batch: Batch, sawRateLimit: bool, ghost path: Path, ghost f: Fetch)
      requires KeptBySteps(setup, others, path) && path(f, State(), clock)
      requires f.pc.Advance? && f.pc.batch == batch && f.saw429 == sawRateLimit
      modifies this, metrics
      ensures naps == old(naps) && path(f.(pc := Charge(batch)), State(), clock)
    {
      AtAdvance(setup, others, path, f, State(), clock);
      Yield();
      log := log + [Accepted(f.pc.req, batch, setup.adapter.cost(adapter))];
      cursor := setup.adapter.next(adapter, cursor);
      if !sawRateLimit { cursor := setup.policy.adjust(cursor, true); }
    }

    /** record_cost */
    method ChargeCost(batch: Batch, ghost path: Path, ghost f: Fetch)
      requires KeptBySteps(setup, others, path) && path(f, State(), clock) && f.pc == Charge(batch)
      modifies this
      ensures naps == old(naps) && path(f.(pc := Finish(batch)), State(), clock)
    {
      AtCharge(setup, others, path, f, State(), clock);
      Yield();
      spent := RecordCost(setup.policy, spent, setup.adapter.cost(adapter));
    }

    /** Note exhaustion and count the success. */
    method Conclude(batch: Batch, ghost path: Path, ghost f: Fetch)
      requires KeptBySteps(setup, others, path) && path(f, State(), clock) && f.pc == Finish(batch)
      modifies this, metrics
      ensures naps == old(naps) && path(f.(pc := Returned(Yielded(batch))), State(), clock)
    {
      AtFinish(setup, others, path, f, State(), clock);
      Yield();
      metrics.SetWindowSizeMs(cursor.Window());
      if cursor.exhausted { streamDone := true; }
      metrics.IncSuccess();
      metrics.AddRecords(1);
    }

    /** Parse an acceptable response and move on; None is a parse failure. */
    method Accept(resp: Response, sawRateLimit: bool, ghost path: Path, ghost f: Fetch)
      returns (batch: Option<Batch>)
      requires KeptBySteps(setup, others, path) && path(f, State(), clock)
      requires f.pc.Parse? && f.pc.resp == resp && f.saw429 == sawRateLimit
      modifies this, metrics
      ensures naps == old(naps)
      ensures var result := if batch.None? then Failed(PARSE) else Yielded(batch.value);
              path(f.(pc := Returned(result)), State(), clock)
    {
      AtParse(setup, others, path, f, State(), clock);
      Yield();
      var (state, parsed) := setup.adapter.parse(adapter, resp.body);
      adapter := state;
      if parsed.None? {
        metrics.IncErrorParse();
        return None;
      }
      Advance(parsed.value, sawRateLimit, path, f.(pc := Pc.Advance(f.pc.req, parsed.value)));
      ChargeCost(parsed.value, path, f.(pc := Charge(parsed.value)));
      Conclude(parsed.value, path, f.(pc := Finish(parsed.value)));
      return parsed;
    }

    /** One turn of the retry loop, keeping to a path: the result that ends it, if any. */
    method TryOnce(retryCount: nat, sawRateLimit: bool, ghost path: Path, ghost f: Fetch)
      returns (result: Option<Result>, retryCount': nat, sawRateLimit': bool, ghost g: Fetch)
      requires KeptBySteps(setup, others, path) && path(f, State(), clock)
      requires f.pc.Loop? && f.retry == retryCount && f.saw429 == sawRateLimit
      modifies this, metrics
      ensures path(g, State(), clock)
      ensures f.naps <= g.naps && naps == old(naps) + g.naps[|f.naps|..]
      ensures g.retry == retryCount' && g.saw429 == sawRateLimit'
      ensures result.None? ==>
                g.pc.Loop? && retryCount < retryCount' <= setup.policy.maxRetries
      ensures result.Some? ==>
                && g.pc == Returned(result.value)
                && |result.value.batches| == if result.value.Ok() then 1 else 0
    {
      retryCount', sawRateLimit' := retryCount, sawRateLimit;
      var resp;
      resp, g := Attempt(path, f);
      if resp.None? { return Some(Failed(CANCELLED)), retryCount', sawRateLimit', g; }

      var signal;
      signal, retryCount', sawRateLimit', g :=
        Judge(resp.value, retryCount, sawRateLimit, path, g);
      if signal.Again? { return None, retryCount', sawRateLimit', g; }
      if signal.Terminal? { return Some(Failed(signal.error)), retryCount', sawRateLimit', g; }
      var batch := Accept(resp.value, sawRateLimit', path, g);
      result := Some(if batch.None? then Failed(PARSE) else Yielded(batch.value));
      g := g.(pc := Returned(result.value));
    }

    /** fetch_one, keeping to a path. */
    method FetchAlong(ghost path: Path) returns (result: Result, ghost f: Fetch)
      requires KeptBySteps(setup, others, path) && path(Begin(State()), State(), clock)
      modifies this, metrics
      ensures path(f, State(), clock)
      ensures f.pc == Returned(result) && naps == old(naps) + f.naps
      ensures |result.batches| == if result.Ok() then 1 else 0
    {
      var refusal;
      refusal, f := Admit(path, Begin(State()));
      if refusal.Some? { return Failed(refusal.value), f; }

      var retryCount, sawRateLimit := 0, false;
      while true
        invariant f.pc.Loop? && f.retry == retryCount && f.saw429 == sawRateLimit
        invariant path(f, State(), clock)
        invariant naps == old(naps) + f.naps
        invariant retryCount <= setup.policy.maxRetries
        decreases setup.policy.maxRetries - retryCount
      {
        var end;
        end, retryCount, sawRateLimit, f := TryOnce(retryCount, sawRateLimit, path, f);
        if end.Some? { return end.value, f; }
      }
    }

    /** fetch_one: one fetch cycle, exactly as the step functions run it while the other threads
        meddle; its pauses are those of the cycle. */
    method FetchOne() returns (result: Result, ghost f: Fetch)
      modifies this, metrics
      ensures (f, State(), clock)
              == RunUnder(setup, Begin(old(State())), old(State()), others, old(clock))
      ensures f.pc == Returned(result) && naps == old(naps) + f.naps
      ensures |result.batches| == if result.Ok() then 1 else 0
    {
      ghost var goal := RunUnder(setup, Begin(State()), State(), others, clock);
      TowardsIsKept(setup, others, goal);
      result, f := FetchAlong(Towards(setup, others, goal));
    }

    // ---- The public operations ----

    /** The engine is where the machine is after the schedule `acts`, between two calls. */
    ghost predicate Reached(acts: seq<Prefetch.Action>)
      reads this, metrics
    {
      var s := Prefetch.Exec(setup, acts);
      && !Prefetch.Enabled(setup) && s.consumer.Idle? && CanFinishCancel(s)
      && s.lane.core == State()
    }

    method NextBatch(ghost acts: seq<Prefetch.Action>)
      returns (result: Result, ghost acts': seq<Prefetch.Action>)
      requires Reached(acts)
      modifies this, metrics
      ensures Reached(acts') && |result.batches| == if result.Ok() then 1 else 0
      ensures acts <= acts'
      ensures Prefetch.Exec(setup, acts').returned
              == Prefetch.Exec(setup, acts).returned + [Prefetch.Return.Return(result, old(cancelFlag))]
    {
      ghost var more := CallIsSchedule(setup, acts, others, clock);
      ghost var f;
      result, f := FetchOne();
      acts' := acts + more;
    }

    method Cancel(ghost acts: seq<Prefetch.Action>) returns (ghost acts': seq<Prefetch.Action>)
      requires Reached(acts)
      modifies this`cancelFlag, this`streamDone
      ensures Reached(acts') && acts <= acts' && cancelFlag && streamDone
      ensures Prefetch.Exec(setup, acts').returned == Prefetch.Exec(setup, acts).returned
    {
      ghost var stores := MeddleIsSchedule(setup, acts, Meddling(true, true));
      acts' := acts + stores;
      cancelFlag := true;
      streamDone := true;
    }

    /** has_next(), in sequential mode; the others may have stored something since the last call. */
    method HasNext(ghost acts: seq<Prefetch.Action>)
      returns (more: bool, ghost acts': seq<Prefetch.Action>)
      requires Reached(acts)
      modifies this`cancelFlag, this`streamDone, this`clock
      ensures Reached(acts') && acts <= acts' && more == (!streamDone && !cancelFlag)
      ensures Prefetch.Exec(setup, acts').returned == Prefetch.Exec(setup, acts).returned
    {
      ghost var met := MeddleIsSchedule(setup, acts, others(clock));
      Yield();
      return !streamDone && !cancelFlag, acts + met;
    }

    /** The end of stream(), once has_next() was false. */
    method Verdict(ghost acts: seq<Prefetch.Action>)
      returns (verdict: Code, ghost acts': seq<Prefetch.Action>)
      requires Reached(acts) && (streamDone || cancelFlag)
      modifies this`cancelFlag, this`streamDone, this`clock
      ensures Reached(acts') && acts <= acts'
      ensures var t := Prefetch.Exec(setup, acts');
              && t.returned == Prefetch.Exec(setup, acts).returned
              && verdict == (if t.lane.core.cancelled then CANCELLED else OK)
              && (verdict == OK ==> !Prefetch.HasNext(t))
    {
      ghost var met := MeddleIsSchedule(setup, acts, others(clock));
      Yield();
      Prefetch.ProtocolInvariant(setup, acts + met);
      return if cancelFlag then CANCELLED else OK, acts + met;
    }

    /** The body of the loop: call, pass the batch on, and stop or go on. */
    method PassBatch(
      keep: nat -> bool, turn: nat, before: seq<Batch>, ghost turns: nat,
      ghost start: Prefetch.System, ghost acts: seq<Prefetch.Action>)
      returns (verdict: Option<Code>, passed: seq<Batch>, ghost acts': seq<Prefetch.Action>)
      requires Reached(acts) && turn < turns
      requires Streaming(start, Prefetch.Exec(setup, acts), keep, turn, before)
      modifies this, metrics
      ensures Reached(acts') && acts <= acts'
      ensures verdict.None? ==>
                Streaming(start, Prefetch.Exec(setup, acts'), keep, turn + 1, passed)
      ensures verdict.Some? ==>
                Streamed(start, Prefetch.Exec(setup, acts'), keep, turns, verdict, passed)
    {
      ghost var s, late := Prefetch.Exec(setup, acts), cancelFlag;
      var result;
      passed := before;
      result, acts' := NextBatch(acts);
      StreamTurns(start, s, Prefetch.Exec(setup, acts'), keep, turn, turns, passed,
                  Prefetch.Return.Return(result, late));
      if result.error == EXHAUSTED { return Some(OK), passed, acts'; }
      if result.error != OK { return Some(result.error), passed, acts'; }
      passed := passed + result.batches;
      if !keep(|passed| - 1) { return Some(CANCELLED), passed, acts'; }
      verdict := None;
    }

    /** One turn of the loop of stream(): the verdict that ends it, if any. */
    method StreamTurn(
      keep: nat -> bool, turn: nat, before: seq<Batch>, ghost turns: nat,
      ghost start: Prefetch.System, ghost acts: seq<Prefetch.Action>)
      returns (verdict: Option<Code>, passed: seq<Batch>, ghost acts': seq<Prefetch.Action>)
      requires Reached(acts) && turn < turns
      requires Streaming(start, Prefetch.Exec(setup, acts), keep, turn, before)
      modifies this, metrics
      ensures Reached(acts') && acts <= acts'
      ensures verdict.None? ==>
                Streaming(start, Prefetch.Exec(setup, acts'), keep, turn + 1, passed)
      ensures verdict.Some? ==>
                Streamed(start, Prefetch.Exec(setup, acts'), keep, turns, verdict, passed)
    {
      ghost var s := Prefetch.Exec(setup, acts);
      var more;
      more, acts' := HasNext(acts);
      if more {
        verdict, passed, acts' := PassBatch(keep, turn, before, turns, start, acts');
      } else {
        var code;
        code, acts' := Verdict(acts');
        verdict, passed := Some(code), before;
        StreamEnds(start, s, Prefetch.Exec(setup, acts'), keep, turn, turns, code, passed);
      }
    }

    /** stream(), for at most `turns` turns of its loop: the callback answers `keep(k)` to the
        k-th batch it is passed. None if the loop is not over by then. */
    method Stream(keep: nat -> bool, turns: nat, ghost acts: seq<Prefetch.Action>)
      returns (verdict: Option<Code>, passed: seq<Batch>, ghost acts': seq<Prefetch.Action>)
      requires Reached(acts)
      modifies this, metrics
      ensures Reached(acts') && acts <= acts'
      ensures Streamed(Prefetch.Exec(setup, acts), Prefetch.Exec(setup, acts'), keep, turns,
                       verdict, passed)
    {
      ghost var start := Prefetch.Exec(setup, acts);
      StreamStarts(start, keep);
      verdict, acts', passed := None, acts, [];
      var turn := 0;
      while turn < turns
        invariant turn <= turns && Reached(acts') && acts <= acts' && verdict == None
        invariant Streaming(start, Prefetch.Exec(setup, acts'), keep, turn, passed)
      {
        verdict, passed, acts' := StreamTurn(keep, turn, passed, turns, start, acts');
        if verdict.Some? { return; }
        turn := turn + 1;
      }
      StreamRunsOut(start, Prefetch.Exec(setup, acts'), keep, turns, passed);
    }
  }

  /** Where a loop signal sends the fetch cycle. */
  predicate Signals(signal: Signal, f: Fetch, g: Fetch)
    requires f.pc.Handle?
  {
    match signal
    case Proceed => g == f.(pc := Parse(f.pc.req, f.pc.resp))
    case Again => g.pc.Loop?
    case Terminal(error) => error != OK && g.pc == Returned(Failed(error))
  }
}
