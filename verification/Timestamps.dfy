/**
 What stream_next_v2_ts reports. The handle reads the engine's cursor right after the call that
 gave the batch; the header promises the record's own timestamp.
 */
module Timestamps {
  import opened Wire
  import opened Fetching
  import opened Prefetch
  import opened Projection
  import opened Accounting
  import opened Chain
  import opened Delivery
  import opened Windows
  import opened DefaultPolicy
  import opened Datadog
  import opened Realised
  import CApi
  import Reading

  // ---- The moment of the read ----

  /** A call has just returned a batch, and the consumer is between calls. */
  predicate JustRead(s: System) {
    s.consumer.Idle? && s.returned != [] && s.returned[|s.returned| - 1].result.Ok()
  }

  /** time_window_start of the engine's cursor at that moment. */
  function Reported(s: System): int { s.lane.core.cursor.start }

  /** The window start of the fetch cycle whose batch the last call returned. */
  function Own(s: System): int {
    if s.returned == [] || |s.returned| > |s.lane.fetches| then 0
    else s.lane.fetches[|s.returned| - 1].from.start
  }

  /** A request for the window that starts where `from` does. */
  ghost predicate BuiltFor(a: Adapter, from: Cursor, req: Request) {
    exists x: int :: req == a.build(from.(end := x))
  }

  ghost predicate AsksOwn(e: Setup, f: Fetch) {
    f.pc.Handle? || f.pc.Parse? || f.pc.Advance? ==> BuiltFor(e.adapter, f.from, f.pc.req)
  }

  lemma AsksOwnStep(e: Setup, f: Fetch, c: Core)
    requires Running(f) && Framed(f, c) && AsksOwn(e, f)
    ensures AsksOwn(e, Step(e, f, c).0)
  {
    if f.pc.Send? {
      assert c.cursor == f.from.(end := c.cursor.end);
      assert e.adapter.build(c.cursor) == e.adapter.build(f.from.(end := c.cursor.end));
    } else if f.pc.Handle? {
      HandleEffect(e, f, c);
    } else if !f.pc.Advance? {
      CursorUntouched(e, f, c);
    }
  }

  /** It is the start the cycle's requests ask for: until the response is accepted, each is built
      from the cursor the cycle began with, but for the end of its window. */
  lemma {:induction false} RequestsAskForOwn(e: Setup, ticks: seq<Tick>)
    requires KeepsKey(e.policy)
    ensures var l := Play(e, ticks); l.fetches != [] ==> AsksOwn(e, Last(l))
  {
    if ticks != [] {
      var before := ticks[..|ticks| - 1];
      var l := Play(e, before);
      RequestsAskForOwn(e, before);
      FramedAlways(e, before);
      if ticks[|ticks| - 1].StepTick? && !Quiet(l) { AsksOwnStep(e, Last(l), l.core); }
    }
  }

  // ---- It is what the handle reports ----

  /** The feed's latest result is what the engine's last call gave, with the cursor as read then. */
  predicate ReadsAt(s: System, feed: CApi.Feed) {
    && JustRead(s)
    && feed(|s.returned| - 1)
       == CApi.Fetched(s.returned[|s.returned| - 1].result, Reported(s))
  }

  /** An unread batch is the latest result the handle has taken. */
  predicate UnreadIsLatest(feed: CApi.Feed, h: CApi.Reader) {
    h.unread.Some? ==> h.taken > 0 && h.unread.value == feed(h.taken - 1)
  }

  lemma {:induction false} EachUnread(
    feed: CApi.Feed, h: CApi.Reader, answer: nat -> int, told: seq<CApi.Event>, turns: nat)
    requires UnreadIsLatest(feed, h)
    ensures UnreadIsLatest(feed, CApi.Each(feed, h, answer, told, turns).handle)
    decreases turns
  {
    if turns > 0 {
      var (last, o) := CApi.Turn(feed, h, answer, told);
      if !last { EachUnread(feed, o.handle, answer, o.events, turns - 1); }
    }
  }

  lemma {:induction false} UnreadAlways(
    dump: Json -> string, feed: CApi.Feed, calls: seq<Reading.Call>)
    ensures UnreadIsLatest(feed, Reading.Run(dump, feed, Reading.OPENED, calls).reader)
  {
    if calls != [] {
      var h := Reading.Run(dump, feed, Reading.OPENED, calls[..|calls| - 1]).reader;
      var call := calls[|calls| - 1];
      UnreadAlways(dump, feed, calls[..|calls| - 1]);
      if call.ForeachV1? { EachUnread(feed, h, call.answer, [], call.turns); }
    }
  }

  /** The timestamp of the handle's unread batch is the engine's cursor as it stood when the batch
      was read. */
  lemma HandleReports(
    dump: Json -> string, feed: CApi.Feed, calls: seq<Reading.Call>, s: System)
    requires ReadsAt(s, feed)
    requires var h := Reading.Run(dump, feed, Reading.OPENED, calls).reader;
             h.unread.Some? && h.taken == |s.returned|
    ensures Reading.Run(dump, feed, Reading.OPENED, calls).reader.unread.value.windowStart
         == Reported(s)
  {
    UnreadAlways(dump, feed, calls);
  }

  // ---- Datadog ----

  lemma LastBatchCounts(e: Setup, acts: seq<Action>)
    requires JustRead(Exec(e, acts))
    ensures |Delivered(Exec(e, acts).returned)| > 0
  {
    EngineShape(e, acts);
  }

  lemma SequentialHandsAll(e: Setup, acts: seq<Action>)
    requires !Enabled(e) && Exec(e, acts).consumer.Idle?
    ensures !Exec(e, acts).inFlight && !Exec(e, acts).timedOut
  {
    ProtocolInvariant(e, acts);
  }

  /** For Datadog, right after the k-th batch was returned: its own range began at
      (k - 1) windows, and the timestamp reported is k windows in sequential mode; in prefetch mode
      it is k windows, or k + 1 if the next worker has already advanced the cursor. */
  lemma DatadogTimestamp(e: Setup, cfg: Config, windowMs: int, acts: seq<Action>)
    requires DatadogRun(e, cfg, windowMs) && JustRead(Exec(e, acts))
    ensures var s := Exec(e, acts);
            var k, log := |Delivered(s.returned)|, s.lane.core.log;
            && 0 < k <= |log| <= k + 1 && (!Enabled(e) ==> |log| == k)
            && log[k - 1].req.Range? && log[k - 1].req.fromSec == Seconds((k - 1) * windowMs)
            && Reported(s) == (if |log| == k then k * windowMs else (k + 1) * windowMs)
  {
    var s := Exec(e, acts);
    LastBatchCounts(e, acts);
    DeliveredPrefix(e, acts);
    if !Enabled(e) { SequentialHandsAll(e, acts); }
    ExecIsPlay(e, acts);
    SlotsAlways(e, cfg, windowMs, Ticks(e, acts));
    StartIsFixedStep(e, cfg, windowMs, Ticks(e, acts));
  }

  // ---- Exactly when it is the batch's own start ----

  /** On every page it can read, the adapter passes the window start on. */
  ghost predicate KeepsStart(a: Adapter) {
    forall body: Option<Json>, c: Cursor ::
      !c.exhausted && a.parse(FRESH_ADAPTER, body).1.Some?
      ==> a.next(a.parse(FRESH_ADAPTER, body).0, c).start == c.start
  }

  /** Every cycle begins, and the cursor stays, at the initial start. */
  predicate StartsStay(e: Setup, l: Lane) {
    && l.core.cursor.start == e.initial.start
    && forall i :: 0 <= i < |l.fetches| ==> l.fetches[i].from.start == e.initial.start
  }

  lemma StartStep(e: Setup, f: Fetch, c: Core)
    requires HistoryFree(e.adapter) && KeepsStart(e.adapter) && KeepsKey(e.policy)
    requires Running(f) && ReadsLatest(e, f, c) && (BeforeAdvance(f.pc) ==> !c.cursor.exhausted)
    ensures var (f', c') := Step(e, f, c);
            && c'.cursor.start == c.cursor.start
            && (BeforeAdvance(f'.pc) ==> !c'.cursor.exhausted)
  {
    if f.pc.Handle? {
      HandleEffect(e, f, c);
      var shrunk := e.policy.adjust(c.cursor, false);
      assert shrunk == c.cursor.(end := shrunk.end);
    } else if f.pc.Advance? {
      AdvanceKeepsStart(e, f, c);
    } else {
      CursorUntouched(e, f, c);
    }
  }

  lemma AdvanceKeepsStart(e: Setup, f: Fetch, c: Core)
    requires HistoryFree(e.adapter) && KeepsStart(e.adapter) && KeepsKey(e.policy)
    requires f.pc.Advance? && ReadsLatest(e, f, c) && !c.cursor.exhausted
    ensures AdvanceCursor(e, f, c).1.cursor.start == c.cursor.start
  {
    var body := e.transport(c.metrics.requests - 1, f.pc.req).body;
    var st :| e.adapter.parse(st, body) == (c.adapter, Some(f.pc.batch));
    assert e.adapter.parse(st, body) == e.adapter.parse(FRESH_ADAPTER, body);
    var next := e.adapter.next(c.adapter, c.cursor);
    assert next.start == c.cursor.start;
    var grown := e.policy.adjust(next, true);
    assert grown == next.(end := grown.end);
  }

  predicate GatePassed(l: Lane) {
    l.fetches != [] && BeforeAdvance(Last(l).pc) ==> !l.core.cursor.exhausted
  }

  lemma {:induction false} StartsAlwaysStay(e: Setup, ticks: seq<Tick>)
    requires HistoryFree(e.adapter) && KeepsStart(e.adapter) && KeepsKey(e.policy)
    ensures StartsStay(e, Play(e, ticks)) && GatePassed(Play(e, ticks))
  {
    if ticks != [] {
      var before := ticks[..|ticks| - 1];
      var l := Play(e, before);
      StartsAlwaysStay(e, before);
      NextReadsLatest(e, before);
      if ticks[|ticks| - 1].StepTick? && !Quiet(l) { StartStep(e, Last(l), l.core); }
    }
  }

  lemma OnePageRun(a: Adapter, p: Policy, body: Option<Json>, c: Cursor)
    returns (acts: seq<Action>)
    requires KeepsKey(p) && !c.exhausted && a.parse(FRESH_ADAPTER, body).1.Some?
    ensures var s := Exec(OnePage(a, p, body, c), acts);
            && JustRead(s) && Own(s) == c.start
            && Reported(s) == a.next(a.parse(FRESH_ADAPTER, body).0, c).start
  {
    var e := OnePage(a, p, body, c);
    acts := CallReaches(e, 1);
    OnePageFetch(a, p, body, c);
    assert Sequential(e, 1).fetches[0] == Last(Sequential(e, 1));
    var next := a.next(a.parse(FRESH_ADAPTER, body).0, c);
    assert p.adjust(next, true) == next.(end := p.adjust(next, true).end);
  }

  lemma OwnWhenKept(e: Setup, acts: seq<Action>)
    requires HistoryFree(e.adapter) && KeepsStart(e.adapter) && KeepsKey(e.policy)
    requires JustRead(Exec(e, acts))
    ensures Reported(Exec(e, acts)) == Own(Exec(e, acts))
  {
    ExecIsPlay(e, acts);
    StartsAlwaysStay(e, Ticks(e, acts));
    LastIsHanded(e, acts);
  }

  /** A call that returned OK was answered from a fetch cycle. */
  lemma LastIsHanded(e: Setup, acts: seq<Action>)
    requires JustRead(Exec(e, acts))
    ensures |Exec(e, acts).returned| <= |Exec(e, acts).lane.fetches|
  {
    ProtocolInvariant(e, acts);
    HandedSoFar(e, Exec(e, acts));
  }

  /** Under each policy, so in each mode: the timestamp reported is the batch's own window start, on
      every engine with this adapter, under every schedule and after every batch, if and only if the
      adapter passes the window start on from every page it can read. */
  lemma TimestampIsOwnIff(a: Adapter, p: Policy)
    requires HistoryFree(a) && KeepsKey(p)
    ensures (forall e: Setup, acts: seq<Action> ::
               e.adapter == a && e.policy == p && JustRead(Exec(e, acts))
               ==> Reported(Exec(e, acts)) == Own(Exec(e, acts)))
       <==> KeepsStart(a)
  {
    if KeepsStart(a) {
      forall e: Setup, acts: seq<Action> |
        e.adapter == a && e.policy == p && JustRead(Exec(e, acts))
        ensures Reported(Exec(e, acts)) == Own(Exec(e, acts))
      {
        OwnWhenKept(e, acts);
      }
    } else {
      var body: Option<Json>, c: Cursor :|
        !c.exhausted && a.parse(FRESH_ADAPTER, body).1.Some?
        && a.next(a.parse(FRESH_ADAPTER, body).0, c).start != c.start;
      var acts := OnePageRun(a, p, body, c);
      assert OnePage(a, p, body, c).policy == p;
    }
  }
}
