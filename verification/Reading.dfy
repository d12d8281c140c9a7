/**
 Whole runs over a C API handle: any interleaving of the four read calls, with any buffer sizes
 and any callbacks, against the simple stream of batches the engine gave.
 */
module Reading {
  import opened Wire
  import opened CApi
  import Fetching
  import Prefetch
  import Projection
  import Accounting
  import opened Chain
  import Delivery
  import Completion

  datatype Call =
    | BatchV1(bufLen: int)
    | TimestampV2
    | ScalarV2(bufLen: int)
    | ForeachV1(answer: nat -> int, turns: nat)

  function Perform(dump: Json -> string, feed: Feed, h: Reader, call: Call): Outcome {
    match call
    case BatchV1(n) => ReadBatch(dump, feed, h, n)
    case TimestampV2 => Peek(feed, h)
    case ScalarV2(n) => ReadBatch(dump, feed, h, n)
    case ForeachV1(answer, turns) => Each(feed, h, answer, [], turns)
  }

  /** A handle after some calls, everything the caller has seen, and the return codes. */
  datatype Session = Session(reader: Reader, events: seq<Event>, codes: seq<Option<int>>)

  const OPENED := Session(FRESH_READER, [], [])

  function Run(dump: Json -> string, feed: Feed, start: Session, calls: seq<Call>): Session {
    if calls == [] then start
    else
      var s := Run(dump, feed, start, calls[..|calls| - 1]);
      var o := Perform(dump, feed, s.reader, calls[|calls| - 1]);
      Session(o.handle, s.events + o.events, s.codes + [o.rc])
  }

  // ---- The simple stream ----

  /** The batches among the first n results of the engine. */
  function Given(feed: Feed, n: nat): seq<Batch> {
    if n == 0 then []
    else Given(feed, n - 1)
         + if feed(n - 1).result.Ok() then [Records(feed(n - 1))] else []
  }

  /** The batches the caller consumed, in order. */
  function Consumed(events: seq<Event>): seq<Batch> {
    if events == [] then []
    else
      var before := Consumed(events[..|events| - 1]);
      if events[|events| - 1].Whole? then before + [events[|events| - 1].records] else before
  }

  function NextUnread(h: Reader): seq<Batch> {
    if h.unread.Some? then [Records(h.unread.value)] else []
  }

  /** Whatever a stopped callback saw is a beginning, not empty, of the batch that is delivered
      next, or that waits in the cache. */
  predicate Redelivered(events: seq<Event>, next: seq<Batch>) {
    if events == [] then true
    else
      var before, event := events[..|events| - 1], events[|events| - 1];
      match event
      case Whole(records) => Redelivered(before, [records])
      case Part(records) =>
        next != [] && records != [] && records <= next[0] && Redelivered(before, next)
  }

  /** Consumed and unread batches together are what the engine gave. */
  predicate InStep(feed: Feed, h: Reader, events: seq<Event>) {
    && Consumed(events) + NextUnread(h) == Given(feed, h.taken)
    && Redelivered(events, NextUnread(h))
  }

  lemma FillInStep(feed: Feed, h: Reader, events: seq<Event>)
    requires InStep(feed, h, events)
    ensures InStep(feed, Fill(feed, h).1, events)
  {
  }

  lemma EventInStep(feed: Feed, h: Reader, events: seq<Event>, event: Event)
    requires InStep(feed, h, events) && h.unread.Some?
    requires event.records == Records(h.unread.value) || event.Part?
    requires event.Part? ==> event.records != [] && event.records <= Records(h.unread.value)
    ensures InStep(feed, if event.Whole? then h.(unread := None) else h, events + [event])
  {
    assert (events + [event])[..|events|] == events;
  }

  lemma OfferInStep(feed: Feed, h: Reader, answer: nat -> int, k: nat, events: seq<Event>)
    requires InStep(feed, h, events) && h.unread.Some?
    ensures var o := Offer(h, answer, k); InStep(feed, o.handle, events + o.events)
  {
    EventInStep(feed, h, events, Offer(h, answer, k).events[0]);
  }

  lemma {:induction false} EachInStep(
    feed: Feed, h: Reader, answer: nat -> int, told: seq<Event>, turns: nat, earlier: seq<Event>)
    requires InStep(feed, h, earlier + told)
    ensures var o := Each(feed, h, answer, told, turns); InStep(feed, o.handle, earlier + o.events)
    decreases turns
  {
    if turns > 0 {
      var (code, full) := Fill(feed, h);
      FillInStep(feed, h, earlier + told);
      var (last, o) := Turn(feed, h, answer, told);
      if code == OK {
        var offer := Offer(full, answer, |Transcript(told)|);
        OfferInStep(feed, full, answer, |Transcript(told)|, earlier + told);
        assert earlier + (told + offer.events) == earlier + told + offer.events;
      }
      if !last { EachInStep(feed, o.handle, answer, o.events, turns - 1, earlier); }
    }
  }

  lemma PerformInStep(dump: Json -> string, feed: Feed, h: Reader, call: Call, earlier: seq<Event>)
    requires InStep(feed, h, earlier)
    ensures var o := Perform(dump, feed, h, call); InStep(feed, o.handle, earlier + o.events)
  {
    var full := Fill(feed, h).1;
    FillInStep(feed, h, earlier);
    assert earlier + [] == earlier;
    if call.ForeachV1? {
      EachInStep(feed, h, call.answer, [], call.turns, earlier);
    } else if full.unread.Some? {
      EventInStep(feed, full, earlier, Whole(Records(full.unread.value)));
    }
  }

  /** Nothing is lost, repeated or reordered by any interleaving of the four calls: the batches
      consumed, and then the unread one, are those the engine gave; and a callback that stops
      early causes that one batch to be delivered again from its first record. */
  lemma {:induction false} HandleInStep(dump: Json -> string, feed: Feed, calls: seq<Call>)
    ensures var s := Run(dump, feed, OPENED, calls); InStep(feed, s.reader, s.events)
  {
    if calls != [] {
      var s := Run(dump, feed, OPENED, calls[..|calls| - 1]);
      HandleInStep(dump, feed, calls[..|calls| - 1]);
      PerformInStep(dump, feed, s.reader, calls[|calls| - 1], s.events);
    }
  }

  // ---- Each record exactly once, if no callback stops ----

  predicate AllWhole(events: seq<Event>) { forall i :: 0 <= i < |events| ==> events[i].Whole? }

  lemma {:induction false} WholeTranscript(events: seq<Event>)
    requires AllWhole(events)
    ensures Transcript(events) == Flat(Consumed(events))
  {
    if events != [] {
      var before := events[..|events| - 1];
      WholeTranscript(before);
      assert Consumed(events)[..|Consumed(before)|] == Consumed(before);
    }
  }

  /** A callback that never stops is shown whole batches only; more generally, so is one whose
      foreach returned STREAM_OK. */
  lemma {:induction false} EachWhole(
    feed: Feed, h: Reader, answer: nat -> int, told: seq<Event>, turns: nat)
    requires AllWhole(told)
    requires (forall k: nat :: answer(k) == Value(OK))
             || Each(feed, h, answer, told, turns).rc == Some(Value(OK))
    ensures AllWhole(Each(feed, h, answer, told, turns).events)
    decreases turns
  {
    if turns > 0 {
      var (last, o) := Turn(feed, h, answer, told);
      if !last { EachWhole(feed, o.handle, answer, o.events, turns - 1); }
    }
  }

  ghost predicate NeverStops(call: Call) {
    call.ForeachV1? ==> forall k: nat :: call.answer(k) == Value(OK)
  }

  lemma {:induction false} WholeRun(dump: Json -> string, feed: Feed, calls: seq<Call>)
    requires forall i :: 0 <= i < |calls| ==> NeverStops(calls[i])
    ensures AllWhole(Run(dump, feed, OPENED, calls).events)
  {
    if calls != [] {
      var s, call := Run(dump, feed, OPENED, calls[..|calls| - 1]), calls[|calls| - 1];
      WholeRun(dump, feed, calls[..|calls| - 1]);
      if call.ForeachV1? { EachWhole(feed, s.reader, call.answer, [], call.turns); }
    }
  }

  lemma FlatSplit(read: seq<Batch>, next: seq<Batch>)
    requires |next| <= 1
    ensures Flat(read + next) == Flat(read) + Flat(next)
  {
    if next == [] {
      assert read + next == read;
    } else {
      assert (read + next)[..|read|] == read;
      assert Flat(next) == Flat(next[..0]) + next[0];
    }
  }

  /** If no callback stops early, the caller sees every record the engine gave, but for those of
      the unread batch, exactly once and in order. */
  lemma EachRecordOnce(dump: Json -> string, feed: Feed, calls: seq<Call>)
    requires forall i :: 0 <= i < |calls| ==> NeverStops(calls[i])
    ensures var s := Run(dump, feed, OPENED, calls);
            Transcript(s.events) + Flat(NextUnread(s.reader)) == Flat(Given(feed, s.reader.taken))
  {
    var s := Run(dump, feed, OPENED, calls);
    HandleInStep(dump, feed, calls);
    WholeRun(dump, feed, calls);
    WholeTranscript(s.events);
    var read, next := Consumed(s.events), NextUnread(s.reader);
    FlatSplit(read, next);
  }

  // ---- Reads that show nothing ----

  /** The same handle, or the second has just fetched what the first will fetch next. */
  predicate Twins(feed: Feed, a: Reader, b: Reader) { a == b || Fill(feed, a) == (OK, b) }

  lemma TwinsEach(feed: Feed, a: Reader, b: Reader, answer: nat -> int, turns: nat)
    requires Fill(feed, a) == (OK, b)
    ensures var o, p := Each(feed, a, answer, [], turns), Each(feed, b, answer, [], turns);
            o.rc == p.rc && o.events == p.events && Twins(feed, o.handle, p.handle)
  {
    assert Turn(feed, a, answer, []) == Turn(feed, b, answer, []);
  }

  lemma TwinsPerform(dump: Json -> string, feed: Feed, a: Reader, b: Reader, call: Call)
    requires Twins(feed, a, b)
    ensures var o, p := Perform(dump, feed, a, call), Perform(dump, feed, b, call);
            o.rc == p.rc && o.events == p.events && Twins(feed, o.handle, p.handle)
  {
    if a != b {
      assert b.unread.Some? && Fill(feed, b) == (OK, b);
      match call
      case ForeachV1(answer, turns) => TwinsEach(feed, a, b, answer, turns);
      case _ =>
    }
  }

  lemma {:induction false} TwinsRun(
    dump: Json -> string, feed: Feed, s: Session, t: Session, later: seq<Call>)
    requires Twins(feed, s.reader, t.reader)
    requires s.events == t.events && s.codes == t.codes
    ensures var (u, v) := (Run(dump, feed, s, later), Run(dump, feed, t, later));
            u.codes == v.codes && u.events == v.events && Twins(feed, u.reader, v.reader)
  {
    if later != [] {
      var before := later[..|later| - 1];
      TwinsRun(dump, feed, s, t, before);
      TwinsPerform(dump, feed, Run(dump, feed, s, before).reader, Run(dump, feed, t, before).reader,
                   later[|later| - 1]);
    }
  }

  /** A call that hands out no batch and is no foreach: it was refused, its buffer is too small,
      only the timestamp was asked for, or the engine had no batch. */
  predicate ShowsNothing(dump: Json -> string, feed: Feed, h: Reader, call: Call) {
    !call.ForeachV1? && Perform(dump, feed, h, call).events == []
  }

  /** Refused for its arguments, before the engine is asked. */
  predicate Refused(call: Call) {
    (call.BatchV1? || call.ScalarV2?) && call.bufLen <= 0
  }

  /** A call that shows nothing changes nothing that later calls return or show, if a batch was
      there or the call was refused. Otherwise it has used up the error it returns: later calls
      run from the result after it. */
  lemma PeekIsTransparent(
    dump: Json -> string, feed: Feed, s: Session, quiet: Call, later: seq<Call>)
    requires ShowsNothing(dump, feed, s.reader, quiet)
    ensures var o := Perform(dump, feed, s.reader, quiet);
            var (u, v) := (Run(dump, feed, s, later), Run(dump, feed, s.(reader := o.handle), later));
            var kept := Refused(quiet) || Fill(feed, s.reader).0 == OK;
            && (kept ==> u.codes == v.codes && u.events == v.events)
            && (!kept ==> o.rc == Some(Value(Fill(feed, s.reader).0))
                          && o.handle == Reader(None, s.reader.taken + 1))
  {
    if Refused(quiet) || Fill(feed, s.reader).0 == OK {
      TwinsRun(dump, feed, s, s.(reader := Perform(dump, feed, s.reader, quiet).handle), later);
    }
  }

  /** Whatever the engine says next and ever after: a call that shows nothing changes nothing that
      later calls return or show, if and only if it is refused or a batch is already unread. */
  lemma TransparentIff(dump: Json -> string, h: Reader, quiet: Call)
    requires !quiet.ForeachV1?
    ensures (forall feed: Feed :: ShowsNothing(dump, feed, h, quiet) ==>
               Alike(dump, feed, Session(h, [], []),
                     Session(Perform(dump, feed, h, quiet).handle, [], [])))
       <==> Refused(quiet) || h.unread.Some?
  {
    if Refused(quiet) || h.unread.Some? {
      forall feed: Feed, later: seq<Call> | ShowsNothing(dump, feed, h, quiet)
        ensures var s := Session(h, [], []);
                var t := s.(reader := Perform(dump, feed, h, quiet).handle);
                && Run(dump, feed, s, later).codes == Run(dump, feed, t, later).codes
                && Run(dump, feed, s, later).events == Run(dump, feed, t, later).events
      {
        PeekIsTransparent(dump, feed, Session(h, [], []), quiet, later);
      }
    } else {
      var feed := TwoErrors(h.taken);
      var s, t := Session(h, [], []), Session(Reader(None, h.taken + 1), [], []);
      assert feed(h.taken).result == Failed(NETWORK) && feed(h.taken + 1).result == Failed(SERVER);
      assert Fill(feed, h) == (NETWORK, t.reader) && Fill(feed, t.reader).0 == SERVER;
      assert ShowsNothing(dump, feed, h, quiet) && Perform(dump, feed, h, quiet).handle == t.reader;
      OnePeek(dump, feed, s);
      OnePeek(dump, feed, t);
      assert Run(dump, feed, s, [TimestampV2]).codes[0] != Run(dump, feed, t, [TimestampV2]).codes[0];
    }
  }

  /** An engine whose k-th call says NETWORK, and every other SERVER. */
  function TwoErrors(k: nat): Feed {
    (i: nat) => Fetched(Failed(if i == k then NETWORK else SERVER), 0)
  }

  lemma OnePeek(dump: Json -> string, feed: Feed, s: Session)
    ensures Run(dump, feed, s, [TimestampV2])
         == var o := Peek(feed, s.reader); Session(o.handle, s.events + o.events, s.codes + [o.rc])
  {
    var calls := [TimestampV2];
    assert calls[..|calls| - 1] == [] && Run(dump, feed, s, []) == s;
  }

  /** The engine fails once, then gives a batch. A read of the batch that comes after a timestamp read
      succeeds; without it, it would have returned the failure. */
  function FailsOnce(batch: Batch): Feed {
    (i: nat) => Fetched(if i == 1 then Yielded(batch) else Failed(NETWORK), 0)
  }

  lemma ErrorIsLost(dump: Json -> string, batch: Batch, bufLen: int)
    requires bufLen > |dump(Arr(batch))|
    ensures var feed := FailsOnce(batch);
            var after := Peek(feed, FRESH_READER);
            && after.rc == Some(Value(NETWORK))
            && Perform(dump, feed, after.handle, ScalarV2(bufLen)).rc == Some(Value(OK))
            && Perform(dump, feed, FRESH_READER, ScalarV2(bufLen)).rc == Some(Value(NETWORK))
  {
    var feed := FailsOnce(batch);
    assert feed(0).result == Failed(NETWORK) && feed(1).result == Yielded(batch);
    assert Fill(feed, FRESH_READER) == (NETWORK, Reader(None, 1));
    assert [batch][..0] == [] && Flat([batch]) == batch;
    assert Fill(feed, Reader(None, 1)) == (OK, Reader(Some(feed(1)), 2));
  }

  /** STREAM_ERROR_CLIENT from a read is a small buffer if and only if a batch is unread afterwards;
      then exactly that batch is delivered once the buffer is large enough. Otherwise it was the
      engine's, and the next read asks the engine anew. */
  lemma ClientMeans(dump: Json -> string, feed: Feed, h: Reader, bufLen: int)
    requires bufLen > 0 && ReadBatch(dump, feed, h, bufLen).rc == Some(Value(CLIENT))
    ensures var after := ReadBatch(dump, feed, h, bufLen).handle;
            && (after.unread.Some? <==> Fill(feed, h).0 == OK)
            && (after.unread.Some? ==>
                  var text := dump(Arr(Records(after.unread.value)));
                  forall n: int :: n > |text| ==>
                    && bufLen < n
                    && ReadBatch(dump, feed, after, n)
                       == Outcome(Some(Value(OK)), Reader(None, after.taken),
                                  [Whole(Records(after.unread.value))]))
            && (after.unread.None? ==>
                  after.taken == h.taken + 1 && feed(h.taken).result.error == CLIENT)
  {
  }

  /** From the k-th result on, the engine says the same thing for ever, and it is no batch. */
  ghost predicate SameErrorFrom(feed: Feed, k: nat) {
    && !feed(k).result.Ok()
    && forall i: nat :: i >= k ==> feed(i).result.error == feed(k).result.error
  }

  /** The session's later calls return and show what those of the other do. */
  ghost predicate Alike(dump: Json -> string, feed: Feed, s: Session, t: Session) {
    forall later ::
      && Run(dump, feed, s, later).codes == Run(dump, feed, t, later).codes
      && Run(dump, feed, s, later).events == Run(dump, feed, t, later).events
  }

  function Peeks(n: nat): seq<Call> { seq(n, _ => TimestampV2) }

  lemma {:induction false} PeeksCount(
    dump: Json -> string, feed: Feed, s: Session, k: nat, n: nat)
    requires s.reader == Reader(None, k) && s.codes == []
    requires forall i: nat :: k <= i < k + n ==> !feed(i).result.Ok()
    ensures var u := Run(dump, feed, s, Peeks(n));
            && u.reader == Reader(None, k + n) && |u.codes| == n
            && forall i: nat :: i < n ==> u.codes[i] == Some(Value(feed(k + i).result.error))
  {
    if n > 0 {
      assert Peeks(n)[..n - 1] == Peeks(n - 1);
      PeeksCount(dump, feed, s, k, n - 1);
    }
  }

  /** Swallowing an error goes unnoticed for ever if and only if the engine repeats it for ever. */
  lemma SwallowedIff(dump: Json -> string, feed: Feed, k: nat)
    requires !feed(k).result.Ok()
    ensures var s := Session(Reader(None, k), [], []);
            Alike(dump, feed, s, s.(reader := Reader(None, k + 1))) <==> SameErrorFrom(feed, k)
  {
    var s := Session(Reader(None, k), [], []);
    var t := s.(reader := Reader(None, k + 1));
    if SameErrorFrom(feed, k) {
      forall later
        ensures Run(dump, feed, s, later).codes == Run(dump, feed, t, later).codes
        ensures Run(dump, feed, s, later).events == Run(dump, feed, t, later).events
      {
        StuckRun(dump, feed, s, t, k, later);
      }
    }
    if Alike(dump, feed, s, t) {
      forall i: nat | i >= k
        ensures feed(i).result.error == feed(k).result.error
      {
        RepeatsTo(dump, feed, s, t, k, i - k);
      }
    }
  }

  lemma {:induction false} RepeatsTo(
    dump: Json -> string, feed: Feed, s: Session, t: Session, k: nat, n: nat)
    requires !feed(k).result.Ok() && Alike(dump, feed, s, t)
    requires s == Session(Reader(None, k), [], []) && t == s.(reader := Reader(None, k + 1))
    ensures forall i: nat :: k <= i <= k + n ==> feed(i).result.error == feed(k).result.error
  {
    if n > 0 {
      RepeatsTo(dump, feed, s, t, k, n - 1);
      PeeksCount(dump, feed, s, k, n);
      assert Run(dump, feed, s, Peeks(n)).codes[n - 1] == Some(Value(feed(k + (n - 1)).result.error));
      NextPeek(dump, feed, t, k, n);
      assert Run(dump, feed, s, Peeks(n)).codes == Run(dump, feed, t, Peeks(n)).codes;
      CodesAreDistinct(feed(k + n - 1).result.error, feed(k + n).result.error);
    }
  }

  /** From the second session, the n-th peek returns the (k + n)-th result. */
  lemma NextPeek(dump: Json -> string, feed: Feed, t: Session, k: nat, n: nat)
    requires n > 0 && t == Session(Reader(None, k + 1), [], [])
    requires forall i: nat :: k <= i < k + n ==> !feed(i).result.Ok()
    ensures var u := Run(dump, feed, t, Peeks(n));
            |u.codes| == n && u.codes[n - 1] == Some(Value(feed(k + n).result.error))
  {
    PeeksCount(dump, feed, t, k + 1, n - 1);
    assert Peeks(n)[..n - 1] == Peeks(n - 1);
    assert k + 1 + (n - 1) == k + n;
  }

  /** With nothing unread and an engine that only repeats an error, calls show nothing and return
      that error, or STREAM_OK from a foreach if it is EXHAUSTED. */
  lemma {:induction false} StuckRun(
    dump: Json -> string, feed: Feed, s: Session, t: Session, k: nat, later: seq<Call>)
    requires SameErrorFrom(feed, k)
    requires s.reader.unread.None? && t.reader.unread.None?
    requires s.reader.taken >= k && t.reader.taken >= k
    requires s.codes == t.codes && s.events == t.events
    ensures var (u, v) := (Run(dump, feed, s, later), Run(dump, feed, t, later));
            && u.codes == v.codes && u.events == v.events
            && u.reader.unread.None? && v.reader.unread.None?
            && u.reader.taken >= k && v.reader.taken >= k
  {
    if later != [] {
      var before, call := later[..|later| - 1], later[|later| - 1];
      StuckRun(dump, feed, s, t, k, before);
      var u, v := Run(dump, feed, s, before).reader, Run(dump, feed, t, before).reader;
      StuckCall(dump, feed, u, k, call);
      StuckCall(dump, feed, v, k, call);
    }
  }

  /** What a call returns that finds the error. */
  function StuckCode(error: Code, call: Call): Option<int> {
    if Refused(call) then Some(Value(INVALID_ARG))
    else if call.ForeachV1? && call.turns == 0 then None
    else if call.ForeachV1? && error == EXHAUSTED then Some(Value(OK))
    else Some(Value(error))
  }

  lemma StuckCall(dump: Json -> string, feed: Feed, h: Reader, k: nat, call: Call)
    requires SameErrorFrom(feed, k) && h.unread.None? && h.taken >= k
    ensures var o := Perform(dump, feed, h, call);
            && o.events == [] && o.handle.unread.None? && o.handle.taken >= k
            && o.rc == StuckCode(feed(k).result.error, call)
  {
    assert !feed(h.taken).result.Ok();
  }

  // ---- A handle on the engine ----

  /** The feed's first results are those of the calls this engine has answered. */
  predicate Feeds(returned: seq<Prefetch.Return>, feed: Feed) {
    forall k :: 0 <= k < |returned| ==> feed(k).result == returned[k].result
  }

  lemma {:induction false} GivenIsDelivered(returned: seq<Prefetch.Return>, feed: Feed)
    requires Feeds(returned, feed) && Delivery.OneBatchEach(returned)
    ensures Given(feed, |returned|) == Delivery.Delivered(returned)
  {
    if returned != [] {
      var n := |returned| - 1;
      GivenIsDelivered(returned[..n], feed);
      var batches := returned[n].result.batches;
      if returned[n].result.Ok() {
        assert batches[..0] == [] && Flat(batches) == batches[0] && [batches[0]] == batches;
      }
    }
  }

  /** The caller of the C API reads the fault-free page chain: what it consumed, followed by the
      unread batch, is a beginning of the chain, in both modes and under every schedule. */
  lemma HandleReadsChain(
    dump: Json -> string, feed: Feed, calls: seq<Call>,
    e: Fetching.Setup, server: Server, blind: bool, acts: seq<Prefetch.Action>)
    requires Transparent(e, server, blind)
    requires Feeds(Prefetch.Exec(e, acts).returned, feed)
    requires Run(dump, feed, OPENED, calls).reader.taken == |Prefetch.Exec(e, acts).returned|
    ensures var s := Run(dump, feed, OPENED, calls);
            var read := Consumed(s.events) + NextUnread(s.reader);
            && read == Delivery.Delivered(Prefetch.Exec(e, acts).returned)
            && forall i :: 0 <= i < |read| ==> Some(read[i]) == ChainBatch(e, server, i)
  {
    HandleInStep(dump, feed, calls);
    Delivery.EngineShape(e, acts);
    GivenIsDelivered(Prefetch.Exec(e, acts).returned, feed);
    Delivery.DeliveredFromChain(e, server, blind, acts);
  }

  // ---- Completion ----

  /** A last turn that returns STREAM_OK met EXHAUSTED; any other turn left nothing unread, and took at
      most one result, an OK one. */
  predicate TurnsWell(feed: Feed, h: Reader, last: bool, o: Outcome) {
    if last then
      o.rc == Some(Value(OK)) ==>
        && o.handle == Reader(None, h.taken + 1) && feed(h.taken).result.error == EXHAUSTED
    else
      && o.handle.unread == None && h.taken <= o.handle.taken <= h.taken + 1
      && (o.handle.taken > h.taken ==> feed(h.taken).result.Ok())
  }

  lemma TurnEnds(feed: Feed, h: Reader, answer: nat -> int, told: seq<Event>)
    ensures var (last, o) := Turn(feed, h, answer, told); TurnsWell(feed, h, last, o)
  {
  }

  lemma EachIsTurns(feed: Feed, h: Reader, answer: nat -> int, told: seq<Event>, turns: nat)
    requires turns > 0
    ensures var (last, o) := Turn(feed, h, answer, told);
            Each(feed, h, answer, told, turns)
            == if last then o else Each(feed, o.handle, answer, o.events, turns - 1)
  {
  }

  predicate EndsWell(feed: Feed, h: Reader, o: Outcome) {
    && h.taken < o.handle.taken && o.handle.unread == None
    && feed(o.handle.taken - 1).result.error == EXHAUSTED
    && forall k :: h.taken <= k < o.handle.taken - 1 ==> feed(k).result.Ok()
  }

  lemma EndsLater(feed: Feed, h: Reader, o: Outcome, end: Outcome)
    requires TurnsWell(feed, h, false, o) && EndsWell(feed, o.handle, end)
    ensures EndsWell(feed, h, end)
  {
  }

  /** foreach returns STREAM_OK only after the engine said EXHAUSTED, having consumed every batch
      it was given until then. */
  lemma {:induction false} EachEnds(
    feed: Feed, h: Reader, answer: nat -> int, told: seq<Event>, turns: nat)
    requires Each(feed, h, answer, told, turns).rc == Some(Value(OK))
    ensures var o := Each(feed, h, answer, told, turns);
            EndsWell(feed, h, o)
    decreases turns
  {
    var (last, o) := Turn(feed, h, answer, told);
    TurnEnds(feed, h, answer, told);
    EachIsTurns(feed, h, answer, told, turns);
    if !last {
      EachEnds(feed, o.handle, answer, o.events, turns - 1);
      EndsLater(feed, h, o, Each(feed, h, answer, told, turns));
    }
  }

  /** The last call was a foreach that returned STREAM_OK, and until then the engine `s` behind
      the handle had reported nothing but batches. */
  ghost predicate ReadToTheEnd(
    dump: Json -> string, feed: Feed, earlier: seq<Call>, answer: nat -> int, turns: nat,
    s: Prefetch.System)
  {
    var h := Run(dump, feed, OPENED, earlier).reader;
    var o := Each(feed, h, answer, [], turns);
    && Feeds(s.returned, feed) && s.consumer.Idle?
    && (forall k :: 0 <= k < h.taken ==> feed(k).result.Ok())
    && o.rc == Some(Value(OK)) && o.handle.taken == |s.returned|
  }

  lemma ThroughBy(feed: Feed, h: Reader, o: Outcome, s: Prefetch.System)
    requires Delivery.OneBatchEach(s.returned) && Feeds(s.returned, feed) && s.consumer.Idle?
    requires forall k :: 0 <= k < h.taken ==> feed(k).result.Ok()
    requires EndsWell(feed, h, o) && o.handle.taken == |s.returned|
    ensures Completion.StreamSaysOk(s)
  {
    var k := |s.returned| - 1;
    assert feed(k).result == s.returned[k].result;
    forall i | 0 <= i < k
      ensures s.returned[..k][i].result.Ok()
    {
      assert feed(i).result == s.returned[i].result;
    }
  }

  /** The reader that such a foreach leaves. */
  lemma ReaderAfter(
    dump: Json -> string, feed: Feed, earlier: seq<Call>, answer: nat -> int, turns: nat)
    ensures var h := Run(dump, feed, OPENED, earlier).reader;
            Run(dump, feed, OPENED, earlier + [ForeachV1(answer, turns)]).reader
            == Each(feed, h, answer, [], turns).handle
  {
    var all := earlier + [ForeachV1(answer, turns)];
    assert all[..|earlier|] == earlier;
  }

  lemma ReadIsDelivered(
    dump: Json -> string, feed: Feed, calls: seq<Call>, returned: seq<Prefetch.Return>)
    requires Delivery.OneBatchEach(returned) && Feeds(returned, feed)
    requires Run(dump, feed, OPENED, calls).reader == Reader(None, |returned|)
    ensures Consumed(Run(dump, feed, OPENED, calls).events) == Delivery.Delivered(returned)
  {
    HandleInStep(dump, feed, calls);
    GivenIsDelivered(returned, feed);
  }

  lemma EngineIsThrough(
    dump: Json -> string, feed: Feed, earlier: seq<Call>, answer: nat -> int, turns: nat,
    s: Prefetch.System)
    requires Delivery.OneBatchEach(s.returned)
    requires ReadToTheEnd(dump, feed, earlier, answer, turns, s)
    ensures Completion.StreamSaysOk(s)
    ensures Consumed(Run(dump, feed, OPENED, earlier + [ForeachV1(answer, turns)]).events)
            == Delivery.Delivered(s.returned)
  {
    var h := Run(dump, feed, OPENED, earlier).reader;
    EachEnds(feed, h, answer, [], turns);
    ThroughBy(feed, h, Each(feed, h, answer, [], turns), s);
    ReaderAfter(dump, feed, earlier, answer, turns);
    ReadIsDelivered(dump, feed, earlier + [ForeachV1(answer, turns)], s.returned);
  }

  /** When stream_foreach_v1 returns STREAM_OK on a handle to which the engine has reported
      nothing but batches, every page of the whole chain has been delivered, in order. */
  lemma ForeachIsHonest(
    dump: Json -> string, feed: Feed, earlier: seq<Call>, answer: nat -> int, turns: nat,
    e: Fetching.Setup, server: Server, blind: bool, acts: seq<Prefetch.Action>)
    requires Transparent(e, server, blind)
    requires ReadToTheEnd(dump, feed, earlier, answer, turns, Prefetch.Exec(e, acts))
    ensures var read := Consumed(Run(dump, feed, OPENED, earlier + [ForeachV1(answer, turns)]).events);
            && (forall i :: 0 <= i < |read| ==> Some(read[i]) == ChainBatch(e, server, i))
            && ChainEnds(e, server, |read|)
  {
    Delivery.EngineShape(e, acts);
    EngineIsThrough(dump, feed, earlier, answer, turns, Prefetch.Exec(e, acts));
    Completion.CompletionIsHonest(e, server, blind, acts);
  }
}
