/**
 How a C API handle ends: what its calls return after stream_cancel, exactly, and after
 stream_has_next has answered 0.
 */
module HandleEndings {
  import opened Wire
  import opened CApi
  import opened Reading
  import Fetching
  import Prefetch
  import Delivery
  import Endings
  import AfterCancel

  /** A call that asks the engine for a batch if none is cached. */
  predicate Asks(call: Call) { !Refused(call) && !(call.ForeachV1? && call.turns == 0) }

  // ---- A stretch of results without a batch ----

  /** The results k .. m - 1 are errors, of an allowed kind. */
  ghost predicate ErrorsBetween(feed: Feed, k: nat, m: nat, allowed: Code -> bool) {
    forall i: nat :: k <= i < m ==> feed(i).result.error != OK && allowed(feed(i).result.error)
  }

  /** The call was refused, asked nothing, or returned an allowed error. */
  ghost predicate Answered(code: Option<int>, call: Call, allowed: Code -> bool) {
    exists error :: allowed(error) && error != OK && code == StuckCode(error, call)
  }

  lemma TurnTakes(feed: Feed, h: Reader, answer: nat -> int, told: seq<Event>)
    ensures var o := Turn(feed, h, answer, told).1;
            && o.handle.taken == h.taken + (if h.unread.None? then 1 else 0)
            && |o.events| == |told| + if Fill(feed, h).0 == OK then 1 else 0
  {
  }

  lemma TakesMore(dump: Json -> string, feed: Feed, h: Reader, call: Call)
    ensures Perform(dump, feed, h, call).handle.taken >= h.taken
  {
    if call.ForeachV1? { EachTakesMore(feed, h, call.answer, [], call.turns); }
  }

  lemma {:induction false} EachTakesMore(
    feed: Feed, h: Reader, answer: nat -> int, told: seq<Event>, turns: nat)
    ensures var o := Each(feed, h, answer, told, turns);
            && o.handle.taken >= h.taken && |o.events| >= |told|
            && (turns > 0 && Fill(feed, h).0 == OK ==> |o.events| > |told|)
    decreases turns
  {
    if turns > 0 {
      var (last, o) := Turn(feed, h, answer, told);
      TurnTakes(feed, h, answer, told);
      if !last { EachTakesMore(feed, o.handle, answer, o.events, turns - 1); }
    }
  }

  lemma BarrenCall(
    dump: Json -> string, feed: Feed, h: Reader, call: Call, k: nat, m: nat, allowed: Code -> bool,
    some: Code)
    requires ErrorsBetween(feed, k, m, allowed) && allowed(some) && some != OK
    requires h.unread.None? && k <= h.taken && Perform(dump, feed, h, call).handle.taken <= m
    ensures var o := Perform(dump, feed, h, call);
            && o.events == [] && o.handle.unread.None? && Answered(o.rc, call, allowed)
  {
    if Asks(call) {
      TakesOne(dump, feed, h, call);
      assert feed(h.taken).result.error != OK && allowed(feed(h.taken).result.error);
    } else {
      assert StuckCode(some, call) == Perform(dump, feed, h, call).rc;
    }
  }

  lemma TakesOne(dump: Json -> string, feed: Feed, h: Reader, call: Call)
    requires h.unread.None? && Asks(call)
    ensures Perform(dump, feed, h, call).handle.taken > h.taken
  {
    if call.ForeachV1? { EachTakesOne(feed, h, call.answer, call.turns); }
  }

  lemma EachTakesOne(feed: Feed, h: Reader, answer: nat -> int, turns: nat)
    requires h.unread.None? && turns > 0
    ensures Each(feed, h, answer, [], turns).handle.taken > h.taken
  {
    var (last, o) := Turn(feed, h, answer, []);
    TurnTakes(feed, h, answer, []);
    if !last { EachTakesMore(feed, o.handle, answer, o.events, turns - 1); }
  }

  /** While the engine gives no batch, nothing is shown, and every call is refused or returns one
      of the errors. */
  lemma {:induction false} BarrenRun(
    dump: Json -> string, feed: Feed, s: Session, later: seq<Call>, k: nat, m: nat,
    allowed: Code -> bool, some: Code)
    requires ErrorsBetween(feed, k, m, allowed) && allowed(some) && some != OK
    requires s.reader.unread.None? && k <= s.reader.taken && s.codes == []
    requires Run(dump, feed, s, later).reader.taken <= m
    ensures var t := Run(dump, feed, s, later);
            && t.events == s.events && t.reader.unread.None? && k <= t.reader.taken
            && |t.codes| == |later|
            && forall i :: 0 <= i < |later| ==> Answered(t.codes[i], later[i], allowed)
  {
    if later != [] {
      var before, call := later[..|later| - 1], later[|later| - 1];
      var u := Run(dump, feed, s, before);
      TakesMore(dump, feed, u.reader, call);
      BarrenRun(dump, feed, s, before, k, m, allowed, some);
      BarrenCall(dump, feed, u.reader, call, k, m, allowed, some);
    }
  }

  // ---- After stream_cancel ----

  /** Every call was answered CANCELLED and showed nothing. */
  predicate Denied(s: Session, t: Session) {
    && t.events == s.events
    && forall i :: 0 <= i < |t.codes| ==> t.codes[i] == Some(Value(CANCELLED))
  }

  /** In this continuation of the engine's schedule, whatever asking calls the handle serves from
      its results, all of them are denied. */
  ghost predicate AllDenied(
    dump: Json -> string, e: Fetching.Setup, more: seq<Prefetch.Action>, s: Session)
  {
    forall feed: Feed, calls: seq<Call> ::
      && Feeds(Prefetch.Exec(e, more).returned, feed)
      && (forall i :: 0 <= i < |calls| ==> Asks(calls[i]))
      && Run(dump, feed, s, calls).reader.taken <= |Prefetch.Exec(e, more).returned|
      ==> Denied(s, Run(dump, feed, s, calls))
  }

  lemma DeniedWhenCancelled(
    dump: Json -> string, feed: Feed, s: Session, calls: seq<Call>, returned: seq<Prefetch.Return>,
    n: nat)
    requires s.codes == [] && s.reader == Reader(None, n) && Feeds(returned, feed)
    requires AfterCancel.CancelledFrom(n, returned)
    requires forall i :: 0 <= i < |calls| ==> Asks(calls[i])
    requires Run(dump, feed, s, calls).reader.taken <= |returned|
    ensures Denied(s, Run(dump, feed, s, calls))
  {
    var allowed := (c: Code) => c == CANCELLED;
    forall i: nat | n <= i < |returned|
      ensures feed(i).result.error == CANCELLED
    {
      assert feed(i).result == returned[i].result;
    }
    BarrenRun(dump, feed, s, calls, n, |returned|, allowed, CANCELLED);
    var t := Run(dump, feed, s, calls);
    forall i | 0 <= i < |calls|
      ensures t.codes[i] == Some(Value(CANCELLED))
    {
      assert Answered(t.codes[i], calls[i], allowed);
    }
  }

  /** A feed that continues the given results. */
  function FeedOf(returned: seq<Prefetch.Return>): Feed {
    (k: nat) => Fetched(if k < |returned| then returned[k].result else Failed(EXHAUSTED), 0)
  }

  /** A timestamp read finds the unread batch, or the engine's next result. */
  lemma NotDenied(dump: Json -> string, s: Session, returned: seq<Prefetch.Return>, n: nat)
    requires s.codes == [] && s.reader.taken == n < |returned|
    requires s.reader.unread.Some? || returned[n].result.error != CANCELLED
    ensures var t := Run(dump, FeedOf(returned), s, [TimestampV2]);
            t.reader.taken <= n + 1 && !Denied(s, t)
  {
    var feed, calls := FeedOf(returned), [TimestampV2];
    var t := Run(dump, feed, s, calls);
    assert calls[..|calls| - 1] == [] && Run(dump, feed, s, []) == s;
    assert t.codes == s.codes + [Peek(feed, s.reader).rc] == [Peek(feed, s.reader).rc];
    assert t.codes[0] != Some(Value(CANCELLED));
  }

  /** The header's promise, from every reachable state between calls with the cancel flag set and
      for every handle that has read all the engine's results so far: whatever happens next, every
      read that asks for data returns CANCELLED and shows nothing, if and only if the handle holds
      no unread batch and the engine's own condition holds. */
  lemma HandleAfterCancelIff(
    dump: Json -> string, s: Session, e: Fetching.Setup, acts: seq<Prefetch.Action>)
    requires Prefetch.Exec(e, acts).consumer.Idle? && Prefetch.Exec(e, acts).lane.core.cancelled
    requires s.codes == [] && s.reader.taken == |Prefetch.Exec(e, acts).returned|
    ensures (forall more :: AllDenied(dump, e, acts + more, s))
       <==> s.reader.unread.None? && AfterCancel.WillSayCancelled(e, Prefetch.Exec(e, acts))
  {
    if s.reader.unread.None? && AfterCancel.WillSayCancelled(e, Prefetch.Exec(e, acts)) {
      forall more
        ensures AllDenied(dump, e, acts + more, s)
      {
        PromiseHolds(dump, s, e, acts, more);
      }
    } else {
      var more := AfterCancel.ReturnAfterCancel(e, acts);
      Delivery.EngineShape(e, acts + more);
      Broken(dump, s, e, acts + more, s.reader.taken);
      assert !AllDenied(dump, e, acts + more, s);
    }
  }

  lemma Broken(
    dump: Json -> string, s: Session, e: Fetching.Setup, acts: seq<Prefetch.Action>, n: nat)
    requires var returned := Prefetch.Exec(e, acts).returned;
             && Delivery.OneBatchEach(returned) && |returned| == n + 1
             && (s.reader.unread.Some? || returned[n].result != Failed(CANCELLED))
    requires s.codes == [] && s.reader.taken == n
    ensures !AllDenied(dump, e, acts, s)
  {
    var returned := Prefetch.Exec(e, acts).returned;
    var r := returned[n].result;
    assert r.error == CANCELLED ==> r == Failed(CANCELLED);
    NotDenied(dump, s, returned, n);
    var calls := [TimestampV2];
    assert forall i :: 0 <= i < |calls| ==> Asks(calls[i]);
    assert Feeds(returned, FeedOf(returned));
    assert !Denied(s, Run(dump, FeedOf(returned), s, calls));
  }

  lemma PromiseHolds(
    dump: Json -> string, s: Session, e: Fetching.Setup, acts: seq<Prefetch.Action>,
    more: seq<Prefetch.Action>)
    requires Prefetch.Exec(e, acts).consumer.Idle? && Prefetch.Exec(e, acts).lane.core.cancelled
    requires s.codes == [] && s.reader == Reader(None, |Prefetch.Exec(e, acts).returned|)
    requires AfterCancel.WillSayCancelled(e, Prefetch.Exec(e, acts))
    ensures AllDenied(dump, e, acts + more, s)
  {
    if Prefetch.Enabled(e) {
      AfterCancel.PromiseKept(e, acts, more);
    } else {
      AfterCancel.InlinePromiseKept(e, acts, more);
    }
    var returned := Prefetch.Exec(e, acts + more).returned;
    forall feed: Feed, calls: seq<Call> |
      && Feeds(returned, feed) && (forall i :: 0 <= i < |calls| ==> Asks(calls[i]))
      && Run(dump, feed, s, calls).reader.taken <= |returned|
      ensures Denied(s, Run(dump, feed, s, calls))
    {
      DeniedWhenCancelled(dump, feed, s, calls, returned, s.reader.taken);
    }
  }

  // ---- After stream_has_next has answered 0 ----

  /** stream_has_next answered 0 for a handle on this engine: nothing is unread and the engine has
      nothing more. Then nothing is ever shown again, and no read but a foreach, which says so of
      an exhausted stream, returns STREAM_OK. */
  lemma NothingAfterHasNext(
    dump: Json -> string, feed: Feed, s: Session, calls: seq<Call>,
    e: Fetching.Setup, acts: seq<Prefetch.Action>, later: seq<Prefetch.Action>)
    requires acts <= later && Prefetch.Exec(e, acts).consumer.Idle?
    requires s.codes == [] && s.reader == Reader(None, |Prefetch.Exec(e, acts).returned|)
    requires !Prefetch.HasNext(Prefetch.Exec(e, acts))
    requires Feeds(Prefetch.Exec(e, later).returned, feed)
    requires Run(dump, feed, s, calls).reader.taken <= |Prefetch.Exec(e, later).returned|
    ensures var t := Run(dump, feed, s, calls);
            && t.events == s.events && t.reader.unread.None? && |t.codes| == |calls|
            && forall i :: 0 <= i < |calls| && !calls[i].ForeachV1? ==> t.codes[i] != Some(Value(OK))
  {
    var returned := Prefetch.Exec(e, later).returned;
    Endings.OnceOverAlwaysOver(e, acts, later);
    Unproductive(dump, feed, s, calls, returned);
  }

  lemma Unproductive(
    dump: Json -> string, feed: Feed, s: Session, calls: seq<Call>, returned: seq<Prefetch.Return>)
    requires s.codes == [] && s.reader.unread.None? && Feeds(returned, feed)
    requires forall k :: s.reader.taken <= k < |returned| ==> !returned[k].result.Ok()
    requires Run(dump, feed, s, calls).reader.taken <= |returned|
    ensures var t := Run(dump, feed, s, calls);
            && t.events == s.events && t.reader.unread.None? && |t.codes| == |calls|
            && forall i :: 0 <= i < |calls| && !calls[i].ForeachV1? ==> t.codes[i] != Some(Value(OK))
  {
    var any := (c: Code) => true;
    forall i: nat | s.reader.taken <= i < |returned|
      ensures feed(i).result.error != OK
    {
      assert feed(i).result == returned[i].result;
    }
    BarrenRun(dump, feed, s, calls, s.reader.taken, |returned|, any, CANCELLED);
    var t := Run(dump, feed, s, calls);
    forall i | 0 <= i < |calls| && !calls[i].ForeachV1?
      ensures t.codes[i] != Some(Value(OK))
    {
      assert Answered(t.codes[i], calls[i], any);
    }
  }
}
