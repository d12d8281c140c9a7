/**
 The documents behind the accepted batches, and what they decide: every accepted batch and cost was
 read from an answer of its own, and the stream ends with the document that ends it.
 */
module Answers {
  import opened Wire
  import opened Fetching
  import opened Chain

  // ---- Which answer was accepted ----

  /** The run is about to accept the answer to its latest request. */
  predicate Accepts(l: Lane, t: Tick) { t.StepTick? && !Quiet(l) && Last(l).pc.Advance? }

  lemma LogGrows(e: Setup, l: Lane, t: Tick)
    ensures |Play1(e, l, t).core.log| == |l.core.log| + if Accepts(l, t) then 1 else 0
    ensures !Accepts(l, t) ==> Play1(e, l, t).core.log == l.core.log
  {
    if t.StepTick? && !Quiet(l) { LogGrowsOnAdvance(e, Last(l), l.core); }
  }

  lemma LogGrowsOnAdvance(e: Setup, f: Fetch, c: Core)
    requires Running(f)
    ensures f.pc.Advance? ==> |Step(e, f, c).1.log| == |c.log| + 1
    ensures !f.pc.Advance? ==> Step(e, f, c).1.log == c.log
  {
    if f.pc.Handle? { HandleEffect(e, f, c); } else if !f.pc.Advance? { CursorUntouched(e, f, c); }
  }

  /** For each accepted batch, the number of the request whose answer it was read from. */
  function Numbers(e: Setup, ticks: seq<Tick>): (ns: seq<nat>)
    ensures |ns| == |Play(e, ticks).core.log|
  {
    if ticks == [] then []
    else
      var before, t := ticks[..|ticks| - 1], ticks[|ticks| - 1];
      var l := Play(e, before);
      LogGrows(e, l, t);
      if Accepts(l, t) then Numbers(e, before) + [Max(0, l.core.metrics.requests - 1)]
      else Numbers(e, before)
  }

  predicate Reads(e: Setup, st: AdapterState, body: Option<Json>, a: Accepted) {
    var (st', batch) := e.adapter.parse(st, body);
    batch == Some(a.batch) && a.cost == e.adapter.cost(st')
  }

  /** The batch and the cost are what the adapter reads in the answer to request number n. */
  ghost predicate ReadFrom(e: Setup, a: Accepted, n: nat) {
    && Proceeds(e.transport(n, a.req))
    && exists st :: Reads(e, st, e.transport(n, a.req).body, a)
  }

  predicate Ascending(ns: seq<nat>) { forall i, j :: 0 <= i < j < |ns| ==> ns[i] < ns[j] }

  /** The requests so far, but for one whose answer is still in hand. */
  function Settled(l: Lane): int {
    var inHand := l.fetches != [] && (Last(l).pc.Handle? || Last(l).pc.Parse? || Last(l).pc.Advance?);
    l.core.metrics.requests - if inHand then 1 else 0
  }

  ghost predicate Sourced(e: Setup, l: Lane, ns: seq<nat>) {
    && |ns| == |l.core.log| && Ascending(ns)
    && forall i :: 0 <= i < |ns| ==> ns[i] < Settled(l) && ReadFrom(e, l.core.log[i], ns[i])
  }

  lemma AcceptSourced(e: Setup, l: Lane, ns: seq<nat>)
    requires Sourced(e, l, ns) && Accepts(l, StepTick) && ReadsLatest(e, Last(l), l.core)
    ensures Sourced(e, StepFetch(e, l), ns + [l.core.metrics.requests - 1])
  {
    var f, c, n := Last(l), l.core, l.core.metrics.requests - 1;
    var body := e.transport(n, f.pc.req).body;
    var st :| e.adapter.parse(st, body) == (c.adapter, Some(f.pc.batch));
    var a := Accepted(f.pc.req, f.pc.batch, e.adapter.cost(c.adapter));
    assert Reads(e, st, body, a);
    assert StepFetch(e, l).core.log == c.log + [a];
  }

  lemma SettledGrows(e: Setup, f: Fetch, c: Core)
    requires Running(f) && !f.pc.Advance?
    ensures var (g, d) := Step(e, f, c);
            Settled(Lane(c, [f])) <= Settled(Lane(d, [g]))
  {
    if f.pc.Handle? { HandleEffect(e, f, c); }
  }

  lemma OtherSourced(e: Setup, l: Lane, t: Tick, ns: seq<nat>)
    requires Sourced(e, l, ns) && !Accepts(l, t)
    ensures Sourced(e, Play1(e, l, t), ns)
  {
    LogGrows(e, l, t);
    if t.StepTick? && !Quiet(l) { SettledGrows(e, Last(l), l.core); }
  }

  /** On every run: each accepted batch, with its cost, was read from an acceptable answer to the
      request it is logged with, each from a later one than the one before. */
  lemma {:induction false} EachReadFromItsAnswer(e: Setup, ticks: seq<Tick>)
    ensures Sourced(e, Play(e, ticks), Numbers(e, ticks))
  {
    if ticks != [] {
      var before, t := ticks[..|ticks| - 1], ticks[|ticks| - 1];
      EachReadFromItsAnswer(e, before);
      if Accepts(Play(e, before), t) {
        NextReadsLatest(e, before);
        AcceptSourced(e, Play(e, before), Numbers(e, before));
      } else {
        OtherSourced(e, Play(e, before), t, Numbers(e, before));
      }
    }
  }

  // ---- The documents ----

  function BodyOf(r: Response): Json { match r.body case Some(doc) => doc case None => Null }

  /** The accepted documents, in order. */
  function Documents(e: Setup, ticks: seq<Tick>): (docs: seq<Json>)
    ensures |docs| == |Play(e, ticks).core.log|
  {
    var log, ns := Play(e, ticks).core.log, Numbers(e, ticks);
    seq(|log|, i requires 0 <= i < |log| => BodyOf(e.transport(ns[i], log[i].req)))
  }

  /** No adapter reads a batch out of a body that is no document. */
  ghost predicate NeedsDocument(a: Adapter) { forall st: AdapterState :: a.parse(st, None).1.None? }

  /** The i-th accepted batch and cost are what the adapter reads in the i-th document. */
  lemma BatchFromDocument(e: Setup, ticks: seq<Tick>, i: nat) returns (st: AdapterState)
    requires NeedsDocument(e.adapter) && i < |Play(e, ticks).core.log|
    ensures Reads(e, st, Some(Documents(e, ticks)[i]), Play(e, ticks).core.log[i])
  {
    EachReadFromItsAnswer(e, ticks);
    var a, n := Play(e, ticks).core.log[i], Numbers(e, ticks)[i];
    assert ReadFrom(e, a, n);
    st :| Reads(e, st, e.transport(n, a.req).body, a);
    assert e.adapter.parse(st, None).1.None?;
  }

  // ---- Where the stream ends ----

  /** Exactly these documents exhaust the cursor. */
  ghost predicate Ender(a: Adapter, ends: Json -> bool) {
    && NeedsDocument(a)
    && forall st: AdapterState, doc: Json, c: Cursor {:trigger a.next(a.parse(st, Some(doc)).0, c)} ::
         !c.exhausted && a.parse(st, Some(doc)).1.Some?
         ==> (a.next(a.parse(st, Some(doc)).0, c).exhausted <==> ends(doc))
  }

  /** The cursor is exhausted if it was so at first, or by the last document; by no other. */
  predicate EndsThere(e: Setup, ends: Json -> bool, docs: seq<Json>, c: Cursor) {
    && (forall i :: 0 <= i < |docs| - 1 ==> !ends(docs[i]))
    && (e.initial.exhausted ==> docs == [])
    && (c.exhausted <==> e.initial.exhausted || (docs != [] && ends(docs[|docs| - 1])))
  }

  predicate EndsInv(e: Setup, ends: Json -> bool, docs: seq<Json>, l: Lane) {
    && EndsThere(e, ends, docs, l.core.cursor)
    && (l.fetches != [] && BeforeAdvance(Last(l).pc) ==> !l.core.cursor.exhausted)
  }

  lemma AcceptEnds(e: Setup, ends: Json -> bool, docs: seq<Json>, l: Lane)
    requires KeepsKey(e.policy) && Ender(e.adapter, ends) && EndsInv(e, ends, docs, l)
    requires Accepts(l, StepTick) && ReadsLatest(e, Last(l), l.core)
    ensures var doc := BodyOf(e.transport(l.core.metrics.requests - 1, Last(l).pc.req));
            EndsInv(e, ends, docs + [doc], StepFetch(e, l))
  {
    var f, c := Last(l), l.core;
    var body := e.transport(c.metrics.requests - 1, f.pc.req).body;
    var st :| e.adapter.parse(st, body) == (c.adapter, Some(f.pc.batch));
    assert e.adapter.parse(st, None).1.None?;
    var next := e.adapter.next(e.adapter.parse(st, Some(body.value)).0, c.cursor);
    assert e.policy.adjust(next, true) == next.(end := e.policy.adjust(next, true).end);
  }

  lemma OtherEnds(e: Setup, ends: Json -> bool, docs: seq<Json>, l: Lane)
    requires KeepsKey(e.policy) && EndsInv(e, ends, docs, l) && !Quiet(l) && !Last(l).pc.Advance?
    ensures EndsInv(e, ends, docs, StepFetch(e, l))
  {
    var f, c := Last(l), l.core;
    if f.pc.Handle? {
      HandleEffect(e, f, c);
      var shrunk := e.policy.adjust(c.cursor, false);
      assert shrunk == c.cursor.(end := shrunk.end);
    } else {
      CursorUntouched(e, f, c);
    }
  }

  lemma OneMoreDocument(e: Setup, ticks: seq<Tick>)
    requires ticks != []
    ensures var before, t := ticks[..|ticks| - 1], ticks[|ticks| - 1];
            var l := Play(e, before);
            if Accepts(l, t) then
              l.core.metrics.requests > 0 &&
              var doc := BodyOf(e.transport(l.core.metrics.requests - 1, Last(l).pc.req));
              Documents(e, ticks) == Documents(e, before) + [doc]
            else Documents(e, ticks) == Documents(e, before)
  {
    var before, t := ticks[..|ticks| - 1], ticks[|ticks| - 1];
    var l := Play(e, before);
    LogGrows(e, l, t);
    NextReadsLatest(e, before);
  }

  /** On every run: the stream's cursor is exhausted exactly from the first accepted document on that
      ends it, and none is accepted after that one. */
  lemma {:induction false} EndsExactly(e: Setup, ends: Json -> bool, ticks: seq<Tick>)
    requires KeepsKey(e.policy) && Ender(e.adapter, ends)
    ensures EndsInv(e, ends, Documents(e, ticks), Play(e, ticks))
  {
    if ticks != [] {
      var before, t := ticks[..|ticks| - 1], ticks[|ticks| - 1];
      var l := Play(e, before);
      EndsExactly(e, ends, before);
      OneMoreDocument(e, ticks);
      if Accepts(l, t) {
        NextReadsLatest(e, before);
        AcceptEnds(e, ends, Documents(e, before), l);
      } else if t.StepTick? && !Quiet(l) {
        OtherEnds(e, ends, Documents(e, before), l);
      }
    }
  }
}
