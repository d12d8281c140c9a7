/**
 The C API: four entry points with different consume rules that share one cached batch.

 The engine behind a handle is a feed: its k-th next_batch() answers `feed(k)`, whatever that is.
 */
module CApi {
  import opened Wire

  /** The int32 value of an error code. */
  function Value(code: Code): (v: int)
    ensures (v == 0 <==> code == OK) && (v == 1 <==> code == EXHAUSTED)
  {
    match code
    case OK => 0
    case EXHAUSTED => 1
    case RATE_LIMIT => -1
    case SERVER => -2
    case CLIENT => -3
    case PARSE => -4
    case NETWORK => -5
    case CANCELLED => -6
    case INVALID_ARG => -7
    case BUDGET_EXHAUSTED => -8
  }

  /** Every code has its own value; only success is 0, only exhaustion 1, and the failures are -1 to -8,
      in the order of the header. */
  lemma CodesAreDistinct(a: Code, b: Code)
    ensures Value(a) == Value(b) ==> a == b
    ensures Value(a) < 0 <==> a != OK && a != EXHAUSTED
    ensures -1 == Value(RATE_LIMIT) > Value(SERVER) > Value(CLIENT) > Value(PARSE) > Value(NETWORK)
    ensures Value(NETWORK) > Value(CANCELLED) > Value(INVALID_ARG) > Value(BUDGET_EXHAUSTED) == -8
  {
  }

  /** A result of next_batch(), and the time_window_start the engine's cursor shows after it. */
  datatype Fetched = Fetched(result: Result, windowStart: int)

  /** The results of the engine, call by call. */
  type Feed = nat -> Fetched

  function Flat(batches: seq<Batch>): Batch {
    if batches == [] then []
    else Flat(batches[..|batches| - 1]) + batches[|batches| - 1]
  }

  function Records(f: Fetched): Batch { Flat(f.result.batches) }

  function Printed(dump: Json -> string, records: Batch): seq<string> {
    seq(|records|, i requires 0 <= i < |records| => dump(records[i]))
  }

  /** A buffer that was `before` now holds `text` and its terminator; the rest is untouched. */
  predicate Holds(buf: seq<char>, before: seq<char>, text: string) {
    |text| < |buf| && buf == text + ['\0'] + buf[|text| + 1..]
    && |before| == |buf| && buf[|text| + 1..] == before[|text| + 1..]
  }

  // ---- The specification of a handle ----

  /** The batch fetched but not yet consumed, and how many results the engine has given. */
  datatype Reader = Reader(unread: Option<Fetched>, taken: nat)

  const FRESH_READER := Reader(None, 0)

  /** What a caller gets to see: a batch it consumed, or the records a callback saw of a batch
      before it stopped. */
  datatype Event = Whole(records: Batch) | Part(records: Batch)

  /** What a call returns, None if it has not returned yet; the handle it leaves; what it shows. */
  datatype Outcome = Outcome(rc: Option<int>, handle: Reader, events: seq<Event>)
  {
    function Following(earlier: seq<Event>): Outcome { this.(events := earlier + events) }
  }

  /** ensure_fetched */
  function Fill(feed: Feed, h: Reader): (Code, Reader) {
    if h.unread.Some? then (OK, h)
    else
      var f := feed(h.taken);
      if f.result.Ok() then (OK, Reader(Some(f), h.taken + 1))
      else (f.result.error, Reader(None, h.taken + 1))
  }

  /** stream_next_batch_v1 and stream_next_v2_sc; a null buffer counts as one of size 0. */
  function ReadBatch(dump: Json -> string, feed: Feed, h: Reader, bufLen: int): Outcome {
    if bufLen <= 0 then Outcome(Some(Value(INVALID_ARG)), h, [])
    else
      var (code, full) := Fill(feed, h);
      if code != OK then Outcome(Some(Value(code)), full, [])
      else
        var records := Records(full.unread.value);
        if |dump(Arr(records))| + 1 > bufLen then Outcome(Some(Value(CLIENT)), full, [])
        else Outcome(Some(Value(OK)), full.(unread := None), [Whole(records)])
  }

  /** stream_next_v2_ts */
  function Peek(feed: Feed, h: Reader): Outcome {
    var (code, full) := Fill(feed, h);
    Outcome(Some(Value(code)), full, [])
  }

  /** The first of `n` callback answers, from the `from`-th on, that asks to stop. */
  function FirstStop(answer: nat -> int, from: nat, n: nat): (i: nat)
    ensures i <= n && (i < n ==> answer(from + i) != Value(OK))
    ensures forall j :: from <= j < from + i ==> answer(j) == Value(OK)
  {
    if n == 0 then 0
    else
      var i := FirstStop(answer, from, n - 1);
      if i < n - 1 || answer(from + i) != Value(OK) then i else n
  }

  /** Every record the caller was shown, in order, redeliveries included. */
  function Transcript(events: seq<Event>): Batch {
    if events == [] then []
    else Transcript(events[..|events| - 1]) + events[|events| - 1].records
  }

  /** The records of the unread batch go to the callback, numbered from `k`, until it stops. */
  function Offer(h: Reader, answer: nat -> int, k: nat): (o: Outcome)
    requires h.unread.Some?
    ensures |o.events| == 1
  {
    var records := Records(h.unread.value);
    var i := FirstStop(answer, k, |records|);
    if i < |records| then Outcome(Some(answer(k + i)), h, [Part(records[..i + 1])])
    else Outcome(Some(Value(OK)), h.(unread := None), [Whole(records)])
  }

  /** One turn of stream_foreach_v1, which has shown `told` so far: whether it is the last, and
      where it leads. The callback answers `answer(k)` to the k-th record it is passed. */
  function Turn(feed: Feed, h: Reader, answer: nat -> int, told: seq<Event>): (bool, Outcome) {
    var (code, full) := Fill(feed, h);
    if code == EXHAUSTED then (true, Outcome(Some(Value(OK)), full, told))
    else if code != OK then (true, Outcome(Some(Value(code)), full, told))
    else
      var o := Offer(full, answer, |Transcript(told)|);
      (o.rc != Some(Value(OK)), o.Following(told))
  }

  /** stream_foreach_v1, for at most `turns` turns of its loop. */
  function Each(feed: Feed, h: Reader, answer: nat -> int, told: seq<Event>, turns: nat): Outcome
    decreases turns
  {
    if turns == 0 then Outcome(None, h, told)
    else
      var (last, o) := Turn(feed, h, answer, told);
      if last then o else Each(feed, o.handle, answer, o.events, turns - 1)
  }

  /** What stream_foreach_v1 has shown beyond `told` ends with a batch its callback stopped in. */
  predicate Stopped(o: Outcome, told: seq<Event>) {
    |o.events| > |told| && o.events[|o.events| - 1].Part?
  }

  /** Stopped, it returns the callback's own answer to the last record shown; otherwise it returns
      what the engine said last, if it returns. */
  predicate RightlyAnswered(feed: Feed, h: Reader, answer: nat -> int, told: seq<Event>, o: Outcome) {
    if Stopped(o, told) then
      var n := |Transcript(o.events)|;
      n > 0 && o.rc == Some(answer(n - 1)) && o.rc != Some(0)
    else o.rc.Some? ==>
      o.handle.taken > h.taken &&
      var error := feed(o.handle.taken - 1).result.error;
      error != OK && o.rc == Some(if error == EXHAUSTED then 0 else Value(error))
  }

  lemma TurnAnswers(feed: Feed, h: Reader, answer: nat -> int, told: seq<Event>)
    ensures var (last, o) := Turn(feed, h, answer, told);
            && told <= o.events && o.handle.taken >= h.taken
            && (if last then RightlyAnswered(feed, h, answer, told, o) else !Stopped(o, told))
  {
    var (code, full) := Fill(feed, h);
    if code == OK {
      var records := Records(full.unread.value);
      var i := FirstStop(answer, |Transcript(told)|, |records|);
      assert (told + Offer(full, answer, |Transcript(told)|).events)[..|told|] == told;
      if i < |records| { assert |records[..i + 1]| == i + 1; }
    }
  }

  lemma AnswersLater(
    feed: Feed, h: Reader, answer: nat -> int, told: seq<Event>, o: Outcome, end: Outcome)
    requires told <= o.events && !Stopped(o, told) && o.handle.taken >= h.taken
    requires o.events <= end.events && RightlyAnswered(feed, o.handle, answer, o.events, end)
    ensures told <= end.events && RightlyAnswered(feed, h, answer, told, end)
  {
  }

  /** A stream_foreach_v1 that its callback stops returns the callback's own answer to the last record
      it was shown; any other returns what the engine said last, or has not returned. */
  lemma {:induction false} EachAnswers(
    feed: Feed, h: Reader, answer: nat -> int, told: seq<Event>, turns: nat)
    ensures var o := Each(feed, h, answer, told, turns);
            told <= o.events && RightlyAnswered(feed, h, answer, told, o)
    decreases turns
  {
    if turns > 0 {
      var (last, o) := Turn(feed, h, answer, told);
      TurnAnswers(feed, h, answer, told);
      if !last {
        EachAnswers(feed, o.handle, answer, o.events, turns - 1);
        AnswersLater(feed, h, answer, told, o, Each(feed, o.handle, answer, o.events, turns - 1));
      }
    }
  }

  type TurnOf = (Reader, seq<Event>) -> (bool, Outcome)
  type EachOf = (Reader, seq<Event>, nat) -> Outcome

  /** `turn` is that function, for one feed and one callback. */
  ghost predicate IsTurn(feed: Feed, answer: nat -> int, turn: TurnOf) {
    forall h: Reader, told: seq<Event> {:trigger Turn(feed, h, answer, told)} ::
      turn(h, told) == Turn(feed, h, answer, told)
  }

  function After(turn: (bool, Outcome), each: EachOf, n: nat): Outcome {
    if turn.0 then turn.1 else each(turn.1.handle, turn.1.events, n)
  }

  /** `each` is the loop of such turns. */
  ghost predicate IsEach(turn: TurnOf, each: EachOf) {
    && (forall h: Reader, told: seq<Event> {:trigger each(h, told, 0)} ::
          each(h, told, 0) == Outcome(None, h, told))
    && (forall h: Reader, told: seq<Event>, n: nat {:trigger each(h, told, n), turn(h, told)} ::
          n > 0 ==> each(h, told, n) == After(turn(h, told), each, n - 1))
  }

  function Turning(feed: Feed, answer: nat -> int): TurnOf {
    (h: Reader, told: seq<Event>) => Turn(feed, h, answer, told)
  }

  function Looping(feed: Feed, answer: nat -> int): EachOf {
    (h: Reader, told: seq<Event>, n: nat) => Each(feed, h, answer, told, n)
  }

  lemma LoopsOfTurns(feed: Feed, answer: nat -> int)
    ensures IsTurn(feed, answer, Turning(feed, answer))
    ensures IsEach(Turning(feed, answer), Looping(feed, answer))
  {
  }

  lemma Associate(a: seq<Event>, b: seq<Event>, c: seq<Event>)
    ensures a + (b + c) == a + b + c
  {
  }

  lemma Shown(dump: Json -> string, told: seq<Event>, more: seq<Event>)
    requires |more| == 1
    ensures Printed(dump, Transcript(told + more))
            == Printed(dump, Transcript(told)) + Printed(dump, more[0].records)
  {
    assert (told + more)[..|told|] == told;
  }

  // ---- The handle itself ----

  class OutInt {
    var value: int
  }

  class StreamHandle {
    const dump: Json -> string
    const feed: Feed
    var taken: nat

    var hasCachedResult: bool
    var cachedJson: string
    var cachedRecordJsons: seq<string>
    var cachedCount: nat
    var cachedTsMs: int

    /** The result the cache was filled from. */
    ghost var unread: Option<Fetched>
    ghost var events: seq<Event>

    ghost predicate Valid()
      reads this
    {
      && hasCachedResult == unread.Some?
      && match unread
         case None => cachedJson == "" && cachedRecordJsons == [] && cachedCount == cachedTsMs == 0
         case Some(f) =>
           && cachedJson == dump(Arr(Records(f)))
           && cachedRecordJsons == Printed(dump, Records(f))
           && cachedCount == |Records(f)|
           && cachedTsMs == f.windowStart
    }

    ghost function State(): Reader
      reads this
    {
      Reader(unread, taken)
    }

    constructor (dump: Json -> string, feed: Feed)
      ensures Valid() && State() == FRESH_READER && events == []
      ensures this.dump == dump && this.feed == feed
    {
      this.dump, this.feed, taken := dump, feed, 0;
      hasCachedResult, cachedJson, cachedRecordJsons := false, "", [];
      cachedCount, cachedTsMs := 0, 0;
      unread, events := None, [];
    }

    /** The inner loop of ensure_fetched: the records of one batch. */
    method AppendRecords(batch: Batch, output: seq<Json>, total: nat)
      returns (output': seq<Json>, total': nat)
      requires total == |output| && cachedRecordJsons == Printed(dump, output)
      modifies this`cachedRecordJsons
      ensures output' == output + batch && total' == |output'|
      ensures cachedRecordJsons == Printed(dump, output')
    {
      output', total' := output, total;
      for j := 0 to |batch|
        invariant output' == output + batch[..j] && total' == |output'|
        invariant cachedRecordJsons == Printed(dump, output')
      {
        output' := output' + [batch[j]];
        cachedRecordJsons := cachedRecordJsons + [dump(batch[j])];
        total' := total' + 1;
      }
    }

    method EnsureFetched() returns (rc: int)
      requires Valid()
      modifies this
      ensures Valid() && events == old(events)
      ensures rc == Value(Fill(feed, old(State())).0) && State() == Fill(feed, old(State())).1
    {
      if hasCachedResult { return Value(OK); }

      var fetched := feed(taken);
      taken := taken + 1;
      if fetched.result.error != OK { return Value(fetched.result.error); }

      var batches := fetched.result.batches;
      var output: seq<Json> := [];
      cachedRecordJsons := [];
      var totalRecords := 0;
      for i := 0 to |batches|
        invariant output == Flat(batches[..i]) && totalRecords == |output|
        invariant cachedRecordJsons == Printed(dump, output)
        invariant taken == old(taken) + 1 && events == old(events) && unread == None
      {
        output, totalRecords := AppendRecords(batches[i], output, totalRecords);
        assert batches[..i + 1][..i] == batches[..i];
      }
      assert batches[..|batches|] == batches;

      cachedJson := dump(Arr(output));
      cachedCount := totalRecords;
      cachedTsMs := fetched.windowStart;
      hasCachedResult := true;
      unread := Some(fetched);
      return Value(OK);
    }

    method ConsumeCache()
      requires Valid()
      modifies this
      ensures Valid() && State() == old(State()).(unread := None) && events == old(events)
    {
      hasCachedResult := false;
      cachedJson := "";
      cachedRecordJsons := [];
      cachedCount := 0;
      cachedTsMs := 0;
      unread := None;
    }

    /** The records of the cached batch; only the cache is consulted when there is one. */
    method HasNext(engineHasNext: bool) returns (rc: int)
      requires Valid()
      ensures rc == if State().unread.Some? || engineHasNext then 1 else 0
    {
      if hasCachedResult { return 1; }
      return if engineHasNext then 1 else 0;
    }

    /** Copy the cached text and its terminator into the caller's buffer. */
    method CopyOut(buf: array<char>)
      requires |cachedJson| < buf.Length
      modifies buf
      ensures Holds(buf[..], old(buf[..]), cachedJson)
    {
      for i := 0 to |cachedJson|
        invariant buf[..i] == cachedJson[..i]
        invariant buf[|cachedJson| + 1..] == old(buf[|cachedJson| + 1..])
      {
        buf[i] := cachedJson[i];
      }
      buf[|cachedJson|] := '\0';
      assert buf[..|cachedJson|] == cachedJson;
    }

    method NextBatchV1(buf: array?<char>, bufLen: int, outCount: OutInt?) returns (rc: int)
      requires Valid() && (buf != null ==> bufLen <= buf.Length)
      modifies this, buf, outCount
      ensures Valid()
      ensures var usable := buf != null && outCount != null;
              var o := ReadBatch(dump, feed, old(State()), if usable then bufLen else 0);
              && Some(rc) == o.rc && State() == o.handle && events == old(events) + o.events
              && (rc != Value(OK) && buf != null ==> buf[..] == old(buf[..]))
              && (rc == Value(INVALID_ARG) && outCount != null && (buf == null || bufLen <= 0)
                  ==> outCount.value == old(outCount.value))
              && (rc != Value(OK) && usable && bufLen > 0 ==> outCount.value == 0)
              && (rc == Value(OK) ==> o.events != [])
              && (rc == Value(OK) ==> outCount.value == |o.events[0].records|)
              && (rc == Value(OK) ==>
                    Holds(buf[..], old(if buf == null then [] else buf[..]),
                          dump(Arr(o.events[0].records))))
    {
      if buf == null || outCount == null { return Value(INVALID_ARG); }
      if bufLen <= 0 { return Value(INVALID_ARG); }
      outCount.value := 0;

      rc := EnsureFetched();
      if rc != Value(OK) { return; }
      if |cachedJson| + 1 > bufLen { return Value(CLIENT); }

      CopyOut(buf);
      outCount.value := cachedCount;
      events := events + [Whole(Records(unread.value))];
      ConsumeCache();
      return Value(OK);
    }

    method NextV2Ts(outTsMs: OutInt?) returns (rc: int)
      requires Valid()
      modifies this, outTsMs
      ensures Valid() && events == old(events)
      ensures outTsMs == null ==> rc == Value(INVALID_ARG) && State() == old(State())
      ensures outTsMs != null ==>
                && Some(rc) == Peek(feed, old(State())).rc && State() == Peek(feed, old(State())).handle
                && outTsMs.value == (if rc == Value(OK) then State().unread.value.windowStart
                                     else old(outTsMs.value))
    {
      if outTsMs == null { return Value(INVALID_ARG); }
      rc := EnsureFetched();
      if rc != Value(OK) { return; }
      outTsMs.value := cachedTsMs;
      return Value(OK);
    }

    method NextV2Sc(outBuf: array?<char>, bufLen: int) returns (rc: int)
      requires Valid() && (outBuf != null ==> bufLen <= outBuf.Length)
      modifies this, outBuf
      ensures Valid()
      ensures var o := ReadBatch(dump, feed, old(State()), if outBuf != null then bufLen else 0);
              && Some(rc) == o.rc && State() == o.handle && events == old(events) + o.events
              && (rc != Value(OK) && outBuf != null ==> outBuf[..] == old(outBuf[..]))
              && (rc == Value(OK) ==> o.events != [])
              && (rc == Value(OK) ==>
                    Holds(outBuf[..], old(if outBuf == null then [] else outBuf[..]),
                          dump(Arr(o.events[0].records))))
    {
      if outBuf == null { return Value(INVALID_ARG); }
      if bufLen <= 0 { return Value(INVALID_ARG); }

      rc := EnsureFetched();
      if rc != Value(OK) { return; }
      if |cachedJson| + 1 > bufLen { return Value(CLIENT); }

      CopyOut(outBuf);
      events := events + [Whole(Records(unread.value))];
      ConsumeCache();
      return Value(OK);
    }

    /** Pass the cached records to the callback, numbering them from `from`, until it stops;
        consume the batch if it does not. */
    method OfferCached(answer: nat -> int, from: nat) returns (rc: int, passed: seq<string>)
      requires Valid() && unread.Some?
      modifies this
      ensures Valid()
      ensures var o := Offer(old(State()), answer, from);
              && Some(rc) == o.rc && State() == o.handle && events == old(events) + o.events
              && passed == Printed(dump, o.events[0].records)
    {
      ghost var records := Records(unread.value);
      for i := 0 to |cachedRecordJsons|
        invariant forall j :: from <= j < from + i ==> answer(j) == Value(OK)
      {
        rc := answer(from + i);
        if rc != Value(OK) {
          events := events + [Part(records[..i + 1])];
          return rc, cachedRecordJsons[..i + 1];
        }
      }
      passed := cachedRecordJsons;
      events := events + [Whole(records)];
      ConsumeCache();
      return Value(OK), passed;
    }

    /** One turn of the loop of stream_foreach_v1. */
    method TakeTurn(
      answer: nat -> int, from: nat, ghost told: seq<Event>, ghost turn: TurnOf)
      returns (last: bool, rc: int, shown: seq<string>, ghost more: seq<Event>)
      requires Valid() && from == |Transcript(told)| && IsTurn(feed, answer, turn)
      modifies this
      ensures Valid()
      ensures turn(old(State()), told) == (last, Outcome(Some(rc), State(), told + more))
      ensures events == old(events) + more
      ensures Printed(dump, Transcript(told + more)) == Printed(dump, Transcript(told)) + shown
    {
      shown, more := [], [];
      ghost var t := Turn(feed, State(), answer, told);
      assert told + [] == told;
      rc := EnsureFetched();
      if rc == Value(EXHAUSTED) { return true, Value(OK), [], []; }
      if rc != Value(OK) { return true, rc, [], []; }
      more := Offer(State(), answer, from).events;
      rc, shown := OfferCached(answer, from);
      Shown(dump, told, more);
      last := rc != Value(OK);
    }

    /** That loop, for at most `turns` turns, its course given as `turn` and `each`; also returns
        the strings the callback was passed, in order. None if the loop is not over by then. */
    method DeliverAlong(
      answer: nat -> int, turns: nat, ghost turn: TurnOf, ghost each: EachOf)
      returns (rc: Option<int>, passed: seq<string>)
      requires Valid() && IsTurn(feed, answer, turn) && IsEach(turn, each)
      modifies this
      ensures Valid()
      ensures var o := each(old(State()), [], turns);
              && rc == o.rc && State() == o.handle && events == old(events) + o.events
              && passed == Printed(dump, Transcript(o.events))
    {
      passed := [];
      ghost var told: seq<Event> := [];
      var left := turns;
      while left > 0
        invariant Valid() && events == old(events) + told
        invariant passed == Printed(dump, Transcript(told))
        invariant each(old(State()), [], turns) == each(State(), told, left)
      {
        var last, code, shown;
        ghost var more;
        last, code, shown, more := TakeTurn(answer, |passed|, told, turn);
        Associate(old(events), told, more);
        passed, told := passed + shown, told + more;
        if last { return Some(code), passed; }
        left := left - 1;
      }
      rc := None;
    }

    method DeliverAll(answer: nat -> int, turns: nat)
      returns (rc: Option<int>, passed: seq<string>)
      requires Valid()
      modifies this
      ensures Valid()
      ensures var o := Each(feed, old(State()), answer, [], turns);
              && rc == o.rc && State() == o.handle && events == old(events) + o.events
              && passed == Printed(dump, Transcript(o.events))
    {
      LoopsOfTurns(feed, answer);
      rc, passed := DeliverAlong(answer, turns, Turning(feed, answer), Looping(feed, answer));
    }

    /** stream_foreach_v1, for at most `turns` turns of its loop. */
    method ForeachV1(cb: Option<nat -> int>, turns: nat)
      returns (rc: Option<int>, passed: seq<string>)
      requires Valid()
      modifies this
      ensures Valid()
      ensures cb.None? ==>
                rc == Some(Value(INVALID_ARG)) && passed == [] && State() == old(State())
                && events == old(events)
      ensures cb.Some? ==>
                var o := Each(feed, old(State()), cb.value, [], turns);
                && rc == o.rc && State() == o.handle && events == old(events) + o.events
                && passed == Printed(dump, Transcript(o.events))
    {
      if cb.None? { return Some(Value(INVALID_ARG)), []; }
      rc, passed := DeliverAll(cb.value, turns);
    }
  }
}
