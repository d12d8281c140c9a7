/**
 The consumer's side of prefetch mode as the object it is: next_batch_prefetch, start_prefetch,
 collect_prefetch and join_prefetch update the prefetch fields step by step while the worker and
 the cancelling threads run. Every call is proved to be a schedule of the protocol machine.
 */
module PrefetchEngine {
  import opened Wire
  import Fetching
  import opened Prefetch
  import opened Streams
  import Delivery
  import Endings

  /** What the other threads may do between two steps of the consumer. */
  predicate IsOthers(a: Action) { a.Work? || a.Publish? || a.CancelSet? || a.CancelDone? }

  /** What another thread does depends on nothing of the consumer's own, and leaves that alone. */
  lemma OthersAreApart(e: Fetching.Setup, s: System, t: System, a: Action)
    requires Enabled(e) && IsOthers(a)
    requires t == s.(consumer := Idle, returned := [], timedOut := false)
    ensures Do(e, t, a) == Do(e, s, a).(consumer := Idle, returned := [], timedOut := false)
    ensures var u := Do(e, s, a);
            && s == u.(lane := s.lane, alive := s.alive, ready := s.ready, slot := s.slot,
                       pendingDone := s.pendingDone)
            && |u.lane.fetches| == |s.lane.fetches|
  {
  }

  /** `run` is the machine of this setup. */
  ghost predicate Runs(e: Fetching.Setup, run: seq<Action> -> System) {
    forall acts {:trigger Exec(e, acts)} :: run(acts) == Exec(e, acts)
  }

  lemma RunStep(e: Fetching.Setup, run: seq<Action> -> System, acts: seq<Action>, a: Action)
    requires Runs(e, run)
    ensures run(acts + [a]) == Do(e, run(acts), a)
  {
    ExecAppend(e, acts, a);
  }

  class PrefetchingEngine {
    const setup: Fetching.Setup
    const others: nat -> seq<Action>
    /** The machine's runs, as one value. */
    ghost const run: seq<Action> -> System
    var clock: nat

    // Shared with the workers and the cancelling threads
    var lane: Fetching.Lane
    var alive: set<nat>
    var ready: bool
    var slot: Result
    var pendingDone: nat

    // The consumer's own
    var inFlight: bool
    var failures: nat
    ghost var consumer: Consumer
    ghost var returned: seq<Return>
    ghost var timedOut: bool

    ghost function State(): System
      reads this
    {
      System(lane, alive, inFlight, failures, ready, slot, consumer, pendingDone, returned, timedOut)
    }

    /** The object is where the machine is after the schedule `acts`. */
    ghost predicate Reached(acts: seq<Action>)
      reads this
    {
      Enabled(setup) && Runs(setup, run) && run(acts) == State()
    }

    constructor (setup: Fetching.Setup, others: nat -> seq<Action>)
      requires Enabled(setup)
      ensures Reached([]) && consumer.Idle? && returned == []
      ensures this.setup == setup && this.others == others
    {
      this.setup, this.others, clock := setup, others, 0;
      run := (acts: seq<Action>) => Exec(setup, acts);
      lane, alive := Fetching.InitialLane(setup), {};
      ready, slot, pendingDone := false, Failed(OK), 0;
      inFlight, failures := false, 0;
      consumer, returned, timedOut := Idle, [], false;
      new;
      if !setup.initial.exhausted {
        inFlight := true;
        lane, alive := Fetching.BeginFetch(lane), {0};
      }
    }

    /** The other threads run. */
    method Yield(ghost acts: seq<Action>) returns (ghost acts': seq<Action>)
      requires Reached(acts)
      modifies this`clock, this`lane, this`alive, this`ready, this`slot, this`pendingDone
      ensures Reached(acts') && acts <= acts'
      ensures |lane.fetches| == |old(lane).fetches|
    {
      var todo := others(clock);
      clock := clock + 1;
      acts' := acts;
      for i := 0 to |todo|
        invariant Reached(acts') && acts <= acts' && |lane.fetches| == |old(lane).fetches|
      {
        if IsOthers(todo[i]) {
          RunStep(setup, run, acts', todo[i]);
          acts' := acts' + [todo[i]];
          Perform(todo[i]);
        }
      }
    }

    /** What another thread does depends on nothing of the consumer's own. */
    method Perform(a: Action)
      requires Enabled(setup) && IsOthers(a)
      modifies this`lane, this`alive, this`ready, this`slot, this`pendingDone
      ensures State() == Do(setup, old(State()), a) && |lane.fetches| == |old(lane).fetches|
    {
      var shared :=
        System(lane, alive, inFlight, failures, ready, slot, Idle, pendingDone, [], false);
      OthersAreApart(setup, State(), shared, a);
      var s := Do(setup, shared, a);
      lane, alive, ready, slot, pendingDone := s.lane, s.alive, s.ready, s.slot, s.pendingDone;
    }

    /** The wait is over because the result is there. */
    method TakeResult(ghost acts: seq<Action>) returns (result: Result, ghost acts': seq<Action>)
      requires Reached(acts) && consumer.Waiting? && ready
      modifies this`consumer
      ensures Reached(acts') && acts' == acts + [Consume]
      ensures result == slot && consumer == Collected(result, old(consumer).late)
    {
      RunStep(setup, run, acts, Consume);
      acts' := acts + [Consume];
      result := slot;
      consumer := Collected(result, consumer.late);
    }

    /** The wait is over because it took too long: cancel the stream, report a network error. */
    method GiveUp(ghost acts: seq<Action>) returns (result: Result, ghost acts': seq<Action>)
      requires Reached(acts) && consumer.Waiting? && !ready
      modifies this`consumer, this`lane, this`timedOut
      ensures Reached(acts') && acts' == acts + [Timeout]
      ensures result == Failed(NETWORK) && consumer == Collected(result, old(consumer).late)
      ensures timedOut && lane == old(lane).(core := old(lane).core.(cancelled := true))
    {
      RunStep(setup, run, acts, Timeout);
      acts' := acts + [Timeout];
      lane := lane.(core := lane.core.(cancelled := true));
      timedOut := true;
      result := Failed(NETWORK);
      consumer := Collected(result, consumer.late);
    }

    /** collect_prefetch: wait for the worker's result, for at most `patience` turns of the others. */
    method CollectPrefetch(patience: nat, ghost acts: seq<Action>)
      returns (result: Result, ghost acts': seq<Action>)
      requires Reached(acts) && consumer.Waiting?
      modifies this`clock, this`lane, this`alive, this`ready, this`slot, this`pendingDone
      modifies this`consumer, this`timedOut
      ensures Reached(acts') && acts <= acts'
      ensures consumer == Collected(result, old(consumer).late)
      ensures ready ==> result == slot
      ensures !ready ==> result == Failed(NETWORK) && timedOut && lane.core.cancelled
    {
      acts' := acts;
      var turn := 0;
      while !ready && turn < patience
        invariant Reached(acts') && acts <= acts' && consumer == old(consumer)
      {
        acts' := Yield(acts');
        turn := turn + 1;
      }
      if ready {
        result, acts' := TakeResult(acts');
      } else {
        result, acts' := GiveUp(acts');
      }
    }

    /** join_prefetch: the thread to be joined has exited. */
    method JoinPrefetch(ghost acts: seq<Action>) returns (ghost acts': seq<Action>)
      requires Reached(acts) && consumer.Joining?
      modifies this`consumer
      ensures Reached(acts') && acts' == acts + [Consume]
      ensures lane.fetches == [] || |lane.fetches| - 1 !in alive
      ensures consumer == Arming(old(consumer).result, old(consumer).late)
    {
      ProtocolInvariant(setup, acts);
      RunStep(setup, run, acts, Consume);
      acts' := acts + [Consume];
      consumer := Arming(consumer.result, consumer.late);
    }

    method ClearReady(ghost acts: seq<Action>) returns (ghost acts': seq<Action>)
      requires Reached(acts) && consumer.Arming?
      modifies this`consumer, this`ready
      ensures Reached(acts') && acts' == acts + [Consume]
      ensures !ready && consumer == Spawning(old(consumer).result, old(consumer).late)
    {
      RunStep(setup, run, acts, Consume);
      acts' := acts + [Consume];
      ready := false;
      consumer := Spawning(consumer.result, consumer.late);
    }

    method StartThread(ghost acts: seq<Action>) returns (ghost acts': seq<Action>)
      requires Reached(acts) && consumer.Spawning?
      modifies this`consumer, this`lane, this`alive, this`inFlight, this`returned
      ensures Reached(acts') && acts' == acts + [Consume]
      ensures consumer.Idle? && inFlight && alive == old(alive) + {|old(lane).fetches|}
      ensures lane == Fetching.BeginFetch(old(lane))
      ensures returned == old(returned) + [Return(old(consumer).result, old(consumer).late)]
    {
      RunStep(setup, run, acts, Consume);
      acts' := acts + [Consume];
      inFlight := true;
      alive := alive + {|lane.fetches|};
      lane := Fetching.BeginFetch(lane);
      returned := returned + [Return(consumer.result, consumer.late)];
      consumer := Idle;
    }

    /** start_prefetch: join the thread that has exited, clear the flag, start the next one; then
        the call returns. */
    method StartPrefetch(ghost acts: seq<Action>) returns (ghost acts': seq<Action>)
      requires Reached(acts) && consumer.Joining?
      modifies this
      ensures Reached(acts') && acts <= acts' && consumer.Idle? && inFlight
      ensures |lane.fetches| == |old(lane).fetches| + 1
      ensures returned == old(returned) + [Return(old(consumer).result, old(consumer).late)]
    {
      acts' := JoinPrefetch(acts);
      acts' := Yield(acts');
      acts' := ClearReady(acts');
      acts' := Yield(acts');
      acts' := StartThread(acts');
    }

    /** Set stream_done_; then the call returns. */
    method StopStream(ghost acts: seq<Action>) returns (ghost acts': seq<Action>)
      requires Reached(acts) && consumer.Stopping?
      modifies this
      ensures Reached(acts') && acts' == acts + [Consume] && consumer.Idle?
      ensures lane == old(lane).(core := old(lane).core.(done := true))
      ensures inFlight == old(inFlight)
      ensures returned == old(returned) + [Return(old(consumer).result, old(consumer).late)]
    {
      RunStep(setup, run, acts, Consume);
      acts' := acts + [Consume];
      lane := lane.(core := lane.core.(done := true));
      returned := returned + [Return(consumer.result, consumer.late)];
      consumer := Idle;
    }

    /** What to do with a collected result: start the next fetch, or stop the stream. */
    method Settle(result: Result, exhausted: bool, ghost acts: seq<Action>)
      returns (restart: bool, ghost acts': seq<Action>)
      requires Reached(acts) && consumer.Deciding?
      requires consumer.result == result && consumer.exhausted == exhausted
      modifies this`failures, this`consumer
      ensures Reached(acts') && acts' == acts + [Consume]
      ensures var retry := !lane.core.cancelled && old(failures) < MAX_PREFETCH_RETRIES;
              restart <==> !exhausted && (result.Ok() || retry)
      ensures failures == (if result.Ok() then 0 else old(failures) + if restart then 1 else 0)
      ensures consumer == if restart then Joining(result, old(consumer).late)
                          else Stopping(result, old(consumer).late)
    {
      RunStep(setup, run, acts, Consume);
      acts' := acts + [Consume];
      if result.Ok() {
        failures := 0;
        restart := !exhausted;
      } else if !exhausted && !lane.core.cancelled && failures < MAX_PREFETCH_RETRIES {
        failures := failures + 1;
        restart := true;
      } else {
        restart := false;
      }
      consumer := if restart then Joining(result, consumer.late) else Stopping(result, consumer.late);
    }

    /** Clear prefetch_in_flight_ and read whether the cursor is exhausted. */
    method LandFlight(ghost acts: seq<Action>) returns (exhausted: bool, ghost acts': seq<Action>)
      requires Reached(acts) && consumer.Collected?
      modifies this`inFlight, this`consumer
      ensures Reached(acts') && acts' == acts + [Consume]
      ensures !inFlight && exhausted == lane.core.cursor.exhausted
      ensures consumer == Deciding(old(consumer).result, exhausted, old(consumer).late)
    {
      RunStep(setup, run, acts, Consume);
      acts' := acts + [Consume];
      inFlight := false;
      exhausted := lane.core.cursor.exhausted;
      consumer := Deciding(consumer.result, exhausted, consumer.late);
    }

    /** A call that finds nothing in flight returns at once; otherwise the wait begins. */
    method EnterCall(ghost acts: seq<Action>)
      returns (answer: Option<Result>, ghost acts': seq<Action>)
      requires Reached(acts) && consumer.Idle?
      modifies this`consumer, this`returned
      ensures Reached(acts') && acts' == acts + [Call]
      ensures answer.None? <==> inFlight
      ensures answer.Some? ==>
                answer.value == Failed(if old(lane.core.cancelled) then CANCELLED else EXHAUSTED)
      ensures answer.None? ==>
                consumer == Waiting(old(lane.core.cancelled)) && returned == old(returned)
      ensures answer.Some? ==>
                && consumer.Idle?
                && returned == old(returned) + [Return(answer.value, old(lane.core.cancelled))]
    {
      RunStep(setup, run, acts, Call);
      acts' := acts + [Call];
      ghost var late := lane.core.cancelled;
      if inFlight {
        consumer := Waiting(late);
        return None, acts';
      }
      var result := Failed(if lane.core.cancelled then CANCELLED else EXHAUSTED);
      returned := returned + [Return(result, late)];
      return Some(result), acts';
    }

    /** The rest of a call once its result is collected. */
    method FinishCall(result: Result, ghost acts: seq<Action>) returns (ghost acts': seq<Action>)
      requires Reached(acts) && consumer.Collected? && consumer.result == result
      modifies this
      ensures Reached(acts') && acts <= acts' && consumer.Idle?
      ensures returned == old(returned) + [Return(result, old(consumer).late)]
    {
      var exhausted, restart;
      acts' := Yield(acts);
      exhausted, acts' := LandFlight(acts');
      acts' := Yield(acts');
      restart, acts' := Settle(result, exhausted, acts');
      acts' := EndCall(restart, acts');
    }

    method EndCall(restart: bool, ghost acts: seq<Action>) returns (ghost acts': seq<Action>)
      requires Reached(acts) && (if restart then consumer.Joining? else consumer.Stopping?)
      modifies this
      ensures Reached(acts') && acts <= acts' && consumer.Idle?
      ensures returned == old(returned) + [Return(old(consumer).result, old(consumer).late)]
    {
      acts' := Yield(acts);
      if restart {
        acts' := StartPrefetch(acts');
      } else {
        acts' := StopStream(acts');
      }
    }

    /** next_batch_prefetch: one call, with the other threads running between its steps. */
    method NextBatch(patience: nat, ghost acts: seq<Action>)
      returns (result: Result, ghost acts': seq<Action>)
      requires Reached(acts) && consumer.Idle?
      modifies this
      ensures Reached(acts') && acts <= acts' && consumer.Idle?
      ensures returned == old(returned) + [Return(result, old(lane.core.cancelled))]
    {
      var answer;
      answer, acts' := EnterCall(acts);
      if answer.Some? { return answer.value, acts'; }
      result, acts' := CollectPrefetch(patience, acts');
      acts' := FinishCall(result, acts');
    }

    /** has_next, between two calls. */
    method HasNextBatch(ghost acts: seq<Action>) returns (more: bool)
      requires Reached(acts) && consumer.Idle?
      ensures more == HasNext(Exec(setup, acts))
    {
      if inFlight { return true; }
      return !lane.core.done && !lane.core.cancelled;
    }

    /** The shape of the result a call has just returned. */
    lemma LastResult(acts: seq<Action>)
      requires Reached(acts) && returned != []
      ensures var r := returned[|returned| - 1].result;
              |r.batches| == if r.Ok() then 1 else 0
    {
      Delivery.EngineShape(setup, acts);
      assert run(acts) == Exec(setup, acts);
    }

    /** The end of stream(), once has_next() was false. */
    method Verdict(ghost acts: seq<Action>) returns (verdict: Code, ghost acts': seq<Action>)
      requires Reached(acts) && consumer.Idle? && !inFlight
      modifies this`clock, this`lane, this`alive, this`ready, this`slot, this`pendingDone
      ensures Reached(acts') && acts <= acts'
      ensures verdict == if lane.core.cancelled then CANCELLED else OK
      ensures !HasNext(State())
    {
      acts' := Yield(acts);
      Endings.HasNextIsInFlight(setup, acts');
      assert run(acts') == Exec(setup, acts');
      verdict := if lane.core.cancelled then CANCELLED else OK;
    }

    /** has_next() as stream() asks it: the others may have done something since the last call. */
    method AskNext(ghost acts: seq<Action>) returns (more: bool, ghost acts': seq<Action>)
      requires Reached(acts) && consumer.Idle?
      modifies this`clock, this`lane, this`alive, this`ready, this`slot, this`pendingDone
      ensures Reached(acts') && acts <= acts' && more == HasNext(State()) == inFlight
    {
      acts' := Yield(acts);
      Endings.HasNextIsInFlight(setup, acts');
      more := HasNextBatch(acts');
      assert run(acts') == Exec(setup, acts');
    }

    /** The body of the loop: call, pass the batch on, and stop or go on. */
    method PassBatch(
      keep: nat -> bool, patience: nat, turn: nat, before: seq<Batch>, ghost turns: nat,
      ghost start: System, ghost acts: seq<Action>)
      returns (verdict: Option<Code>, passed: seq<Batch>, ghost acts': seq<Action>)
      requires Reached(acts) && consumer.Idle? && turn < turns
      requires Streaming(start, State(), keep, turn, before)
      modifies this
      ensures Reached(acts') && acts <= acts' && consumer.Idle?
      ensures verdict.None? ==> Streaming(start, State(), keep, turn + 1, passed)
      ensures verdict.Some? ==> Streamed(start, State(), keep, turns, verdict, passed)
    {
      ghost var s, late := State(), lane.core.cancelled;
      var result;
      passed := before;
      result, acts' := NextBatch(patience, acts);
      LastResult(acts');
      StreamTurns(start, s, State(), keep, turn, turns, passed, Return(result, late));
      if result.error == EXHAUSTED { return Some(OK), passed, acts'; }
      if result.error != OK { return Some(result.error), passed, acts'; }
      passed := passed + result.batches;
      if !keep(|passed| - 1) { return Some(CANCELLED), passed, acts'; }
      verdict := None;
    }

    /** One turn of the loop of stream(): the verdict that ends it, if any. */
    method StreamTurn(
      keep: nat -> bool, patience: nat, turn: nat, before: seq<Batch>, ghost turns: nat,
      ghost start: System, ghost acts: seq<Action>)
      returns (verdict: Option<Code>, passed: seq<Batch>, ghost acts': seq<Action>)
      requires Reached(acts) && consumer.Idle? && turn < turns
      requires Streaming(start, State(), keep, turn, before)
      modifies this
      ensures Reached(acts') && acts <= acts' && consumer.Idle?
      ensures verdict.None? ==> Streaming(start, State(), keep, turn + 1, passed)
      ensures verdict.Some? ==> Streamed(start, State(), keep, turns, verdict, passed)
    {
      ghost var s := State();
      var more;
      more, acts' := AskNext(acts);
      if more {
        acts' := Yield(acts');
        verdict, passed, acts' := PassBatch(keep, patience, turn, before, turns, start, acts');
      } else {
        var code;
        code, acts' := Verdict(acts');
        verdict, passed := Some(code), before;
        StreamEnds(start, s, State(), keep, turn, turns, code, passed);
      }
    }

    /** stream(), for at most `turns` turns of its loop, each call waiting for at most `patience`
        turns of the others. None if the loop is not over by then. */
    method Stream(keep: nat -> bool, patience: nat, turns: nat, ghost acts: seq<Action>)
      returns (verdict: Option<Code>, passed: seq<Batch>, ghost acts': seq<Action>)
      requires Reached(acts) && consumer.Idle?
      modifies this
      ensures Reached(acts') && acts <= acts' && consumer.Idle?
      ensures Streamed(old(State()), State(), keep, turns, verdict, passed)
    {
      ghost var start := State();
      StreamStarts(start, keep);
      verdict, acts', passed := None, acts, [];
      var turn := 0;
      while turn < turns
        invariant turn <= turns && Reached(acts') && acts <= acts' && verdict == None
        invariant consumer.Idle? && Streaming(start, State(), keep, turn, passed)
      {
        verdict, passed, acts' := StreamTurn(keep, patience, turn, passed, turns, start, acts');
        if verdict.Some? { return; }
        turn := turn + 1;
      }
      StreamRunsOut(start, State(), keep, turns, passed);
    }
  }
}
