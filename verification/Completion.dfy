/**
 Completion honesty: when the engine says that the stream is over, and no call has failed, every
 page of the chain has been delivered.
 */
module Completion {
  import opened Wire
  import opened Fetching
  import opened Prefetch
  import opened Projection
  import opened Accounting
  import opened Chain
  import opened Delivery
  import opened Endings

  // ---- EXHAUSTED is only said of an exhausted cursor ----

  /** A cycle that returned EXHAUSTED found the cursor exhausted and left it so. */
  predicate ExhaustedIsTrue(f: Fetch, c: Core) {
    && (f.pc.Entry? ==> c.cursor == f.from)
    && (f.pc == Returned(Failed(EXHAUSTED)) ==> f.from.exhausted && c.cursor.exhausted)
  }

  lemma ExhaustedStep(e: Setup, f: Fetch, c: Core)
    requires Running(f) && ExhaustedIsTrue(f, c)
    ensures var (f', c') := Step(e, f, c); ExhaustedIsTrue(f', c')
  {
  }

  predicate LaneExhausted(l: Lane) {
    && (l.fetches != [] ==> ExhaustedIsTrue(Last(l), l.core))
    && forall i :: 0 <= i < |l.fetches| ==>
         (l.fetches[i].pc == Returned(Failed(EXHAUSTED)) ==> l.fetches[i].from.exhausted)
  }

  lemma {:induction false} ExhaustedHolds(e: Setup, ticks: seq<Tick>)
    ensures LaneExhausted(Play(e, ticks))
  {
    if ticks != [] {
      var l, t := Play(e, ticks[..|ticks| - 1]), ticks[|ticks| - 1];
      ExhaustedHolds(e, ticks[..|ticks| - 1]);
      if t.StepTick? && !Quiet(l) { ExhaustedStep(e, Last(l), l.core); }
    }
  }

  // ---- Why prefetching stops ----

  /** Unless a wait timed out, the stream stops after an OK result only on an exhausted cursor,
      and no worker is ever started on one. */
  predicate StopInv(s: System) {
    && (forall i :: 0 <= i < |s.lane.fetches| ==> !s.lane.fetches[i].from.exhausted)
    && (s.consumer.Stopping? && s.consumer.result.Ok() && !s.timedOut ==> s.lane.core.cursor.exhausted)
    && (s.consumer.Idle? && !s.inFlight && !s.timedOut ==>
          if s.lane.fetches == [] then s.lane.core.cursor.exhausted
          else IsOk(Last(s.lane)) ==> s.lane.core.cursor.exhausted)
  }

  lemma StopConsume(e: Setup, s: System)
    requires Enabled(e) && Inv(e, s) && StopInv(s)
    ensures StopInv(DoConsume(s))
  {
  }

  lemma StopWork(e: Setup, s: System, i: nat)
    requires Enabled(e) && Inv(e, s) && StopInv(s)
    ensures StopInv(DoWork(e, s, i))
  {
    if DoWork(e, s, i) != s {
      var (f, c) := Step(e, s.lane.fetches[i], s.lane.core);
      assert f.from == s.lane.fetches[i].from;
    }
  }

  lemma StopOther(e: Setup, s: System, a: Action)
    requires Enabled(e) && Inv(e, s) && StopInv(s) && !a.Consume? && !a.Work?
    ensures StopInv(Do(e, s, a))
  {
  }

  lemma {:induction false} StopHolds(e: Setup, acts: seq<Action>)
    requires Enabled(e)
    ensures StopInv(Exec(e, acts))
  {
    if acts != [] {
      var s, a := Exec(e, acts[..|acts| - 1]), acts[|acts| - 1];
      StopHolds(e, acts[..|acts| - 1]);
      ProtocolInvariant(e, acts[..|acts| - 1]);
      match a
      case Consume => StopConsume(e, s);
      case Work(i) => StopWork(e, s, i);
      case _ => StopOther(e, s, a);
    }
  }

  // ---- The verdicts of stream() ----

  predicate AllOk(returned: seq<Return>) {
    forall i :: 0 <= i < |returned| ==> returned[i].result.Ok()
  }

  /** stream() returns OK in this state: has_next() is false and the stream was not cancelled, or
      the last call said EXHAUSTED; and no call before that failed. */
  predicate StreamSaysOk(s: System) {
    var k := |s.returned|;
    s.consumer.Idle?
    && ((AllOk(s.returned) && !HasNext(s) && !s.lane.core.cancelled)
        || (k > 0 && AllOk(s.returned[..k - 1])
            && s.returned[k - 1].result == Failed(EXHAUSTED)))
  }

  lemma OverPrefetch(e: Setup, s: System)
    requires Enabled(e) && Inv(e, s) && StopInv(s) && LaneExhausted(s.lane) && StreamSaysOk(s)
    ensures !s.inFlight && !s.timedOut && s.lane.core.cursor.exhausted
  {
    var n, k := |s.lane.fetches|, |s.returned|;
    if s.returned != [] && !AllOk(s.returned) {
      assert n > 0 ==> s.returned[..k - 1][n - 1] == s.returned[n - 1];
    }
  }

  lemma OverInline(e: Setup, s: System)
    requires !Enabled(e) && Inv(e, s) && LaneExhausted(s.lane) && StreamSaysOk(s)
    requires DoneMeansOver(e, s.lane)
    ensures !s.inFlight && !s.timedOut && s.lane.core.cursor.exhausted
  {
  }

  /** When stream() returns OK, on a fresh engine in either mode and under every schedule, every
      page of the whole chain was delivered, in order. */
  lemma CompletionIsHonest(e: Setup, server: Server, blind: bool, acts: seq<Action>)
    requires Transparent(e, server, blind) && StreamSaysOk(Exec(e, acts))
    ensures var got := Delivered(Exec(e, acts).returned);
            && (forall i :: 0 <= i < |got| ==> Some(got[i]) == ChainBatch(e, server, i))
            && ChainEnds(e, server, |got|)
  {
    var s := Exec(e, acts);
    ProtocolInvariant(e, acts);
    ExecIsPlay(e, acts);
    ExhaustedHolds(e, Ticks(e, acts));
    if Enabled(e) {
      StopHolds(e, acts);
      OverPrefetch(e, s);
    } else {
      DoneIsExact(e, acts);
      OverInline(e, s);
    }
    DeliveredPrefix(e, acts);
    DeliveredFromChain(e, server, blind, acts);
    FaultTransparency(e, server, blind, Ticks(e, acts));
  }
}
