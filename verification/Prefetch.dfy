/**
 The double-buffer prefetch protocol: one consumer, the worker threads it starts, and any
 number of cancelling threads, interleaved step by step. With prefetch_depth 0 the same
 consumer runs each fetch cycle itself, so both modes are states of one machine.
 */
module Prefetch {
  import opened Wire
  import opened Fetching

  const MAX_PREFETCH_RETRIES := 1

  /** The consumer's program counter. `late` says that the next_batch() call under way began
      with the cancel flag set. */
  datatype Consumer =
    | Idle
    | Inline(late: bool)                                  // sequential: inside fetch_one
    | Waiting(late: bool)                                 // in wait_for
    | Collected(result: Result, late: bool)               // out of collect_prefetch
    | Deciding(result: Result, exhausted: bool, late: bool)
    | Joining(result: Result, late: bool)                 // in join_prefetch
    | Arming(result: Result, late: bool)                  // about to clear prefetch_ready_
    | Spawning(result: Result, late: bool)                // about to start the thread
    | Stopping(result: Result, late: bool)                // about to set stream_done_
    | Destroying                                          // in the destructor's cancel()
    | Closing                                             // in the destructor's join
    | Closed

  /** One completed next_batch() call. */
  datatype Return = Return(result: Result, late: bool)

  /** The engine, its threads and the history of calls. `alive` holds the numbers of the worker
      threads that have not exited; `pendingDone` counts cancel() calls between their stores. */
  datatype System = System(
    lane: Lane,
    alive: set<nat>,
    inFlight: bool, failures: nat, ready: bool, slot: Result,
    consumer: Consumer,
    pendingDone: nat,
    returned: seq<Return>,
    timedOut: bool)

  datatype Action =
    | Call                  // the consumer calls next_batch()
    | Consume               // the consumer takes its next step
    | Timeout               // wait_for gives up
    | Work(thread: nat)     // a fetch cycle takes its next step
    | Publish(thread: nat)  // a worker stores its result and exits
    | CancelSet             // a cancel() call stores cancel_flag_
    | CancelDone            // ... and then stream_done_
    | Destroy               // the consumer destroys the engine

  predicate Enabled(e: Setup) { e.policy.prefetchDepth >= 1 }

  function Newest(s: System): int { |s.lane.fetches| - 1 }

  function HasNext(s: System): bool {
    s.inFlight || (!s.lane.core.done && !s.lane.core.cancelled)
  }

  function Initial(e: Setup): System {
    var l := InitialLane(e);
    if Enabled(e) && !e.initial.exhausted
    then System(BeginFetch(l), {0}, true, 0, false, Failed(OK), Idle, 0, [], false)
    else System(l, {}, false, 0, false, Failed(OK), Idle, 0, [], false)
  }

  function Hand(s: System, result: Result, late: bool): System {
    s.(returned := s.returned + [Return(result, late)], consumer := Idle)
  }

  function SetCancelled(s: System): System {
    s.(lane := s.lane.(core := s.lane.core.(cancelled := true)))
  }

  function SetDone(s: System): System {
    s.(lane := s.lane.(core := s.lane.core.(done := true)))
  }

  function DoCall(e: Setup, s: System): System {
    var late := s.lane.core.cancelled;
    if !s.consumer.Idle? then s
    else if !Enabled(e) then s.(lane := BeginFetch(s.lane), consumer := Inline(late))
    else if s.inFlight then s.(consumer := Waiting(late))
    else Hand(s, Failed(if late then CANCELLED else EXHAUSTED), late)
  }

  function Decide(s: System, result: Result, exhausted: bool, late: bool): System {
    if result.Ok() then
      s.(failures := 0,
         consumer := if exhausted then Stopping(result, late) else Joining(result, late))
    else if !exhausted && !s.lane.core.cancelled && s.failures < MAX_PREFETCH_RETRIES then
      s.(failures := s.failures + 1, consumer := Joining(result, late))
    else
      s.(consumer := Stopping(result, late))
  }

  /** std::thread::join returns once the newest thread has exited, or at once if there is none. */
  predicate Joinable(s: System) { s.lane.fetches == [] || Newest(s) !in s.alive }

  function Spawn(s: System, result: Result, late: bool): System {
    Hand(s.(lane := BeginFetch(s.lane), alive := s.alive + {|s.lane.fetches|}, inFlight := true),
         result, late)
  }

  function DoConsume(s: System): System {
    match s.consumer
    case Inline(late) =>
      if s.lane.fetches != [] && Quiet(s.lane) then Hand(s, Last(s.lane).pc.result, late) else s
    case Waiting(late) => if s.ready then s.(consumer := Collected(s.slot, late)) else s
    case Collected(r, late) =>
      s.(inFlight := false, consumer := Deciding(r, s.lane.core.cursor.exhausted, late))
    case Deciding(r, exhausted, late) => Decide(s, r, exhausted, late)
    case Joining(r, late) => if Joinable(s) then s.(consumer := Arming(r, late)) else s
    case Arming(r, late) => s.(ready := false, consumer := Spawning(r, late))
    case Spawning(r, late) => Spawn(s, r, late)
    case Stopping(r, late) => Hand(SetDone(s), r, late)
    case Destroying => SetDone(s).(consumer := Closing)
    case Closing => if Joinable(s) then s.(consumer := Closed) else s
    case _ => s
  }

  /** The fetch cycle that thread `i` runs takes a step. In sequential mode the consumer is
      that thread, and only the newest cycle can be under way. */
  function DoWork(e: Setup, s: System, i: nat): System {
    var allowed := if Enabled(e) then i in s.alive else s.consumer.Inline? && i == Newest(s);
    if allowed && i < |s.lane.fetches| && Running(s.lane.fetches[i]) then
      var (f, c) := Step(e, s.lane.fetches[i], s.lane.core);
      s.(lane := Lane(c, s.lane.fetches[i := f]))
    else s
  }

  function DoPublish(s: System, i: nat): System {
    if i in s.alive && i < |s.lane.fetches| && !Running(s.lane.fetches[i])
    then s.(slot := s.lane.fetches[i].pc.result, ready := true, alive := s.alive - {i})
    else s
  }

  /** An action that is not possible in a state leaves it unchanged. */
  function Do(e: Setup, s: System, a: Action): System {
    match a
    case Call => DoCall(e, s)
    case Consume => DoConsume(s)
    case Timeout =>
      if s.consumer.Waiting? && !s.ready
      then SetCancelled(s).(timedOut := true,
                            consumer := Collected(Failed(NETWORK), s.consumer.late))
      else s
    case Work(i) => DoWork(e, s, i)
    case Publish(i) => DoPublish(s, i)
    case CancelSet => SetCancelled(s).(pendingDone := s.pendingDone + 1)
    case CancelDone => if s.pendingDone > 0 then SetDone(s).(pendingDone := s.pendingDone - 1) else s
    case Destroy => if s.consumer.Idle? then SetCancelled(s).(consumer := Destroying) else s
  }

  /** The state after a schedule of actions. */
  function Exec(e: Setup, acts: seq<Action>): System {
    if acts == [] then Initial(e)
    else Do(e, Exec(e, acts[..|acts| - 1]), acts[|acts| - 1])
  }

  lemma ExecAppend(e: Setup, acts: seq<Action>, a: Action)
    ensures Exec(e, acts + [a]) == Do(e, Exec(e, acts), a)
  {
    assert (acts + [a])[..|acts|] == acts;
  }

  // ---- The protocol invariant ----

  /** At most the newest worker is alive, and every earlier fetch cycle has returned. */
  predicate OneWorker(s: System) {
    var n := |s.lane.fetches|;
    && (forall i :: 0 <= i < n - 1 ==> !Running(s.lane.fetches[i]))
    && (forall i :: i in s.alive ==> i == n - 1)
  }

  /** The first k calls returned the results of the first k fetch cycles, in order. */
  predicate Handed(s: System, k: nat) {
    && k <= |s.lane.fetches| && k <= |s.returned|
    && forall i :: 0 <= i < k ==>
         !Running(s.lane.fetches[i]) && s.returned[i].result == s.lane.fetches[i].pc.result
  }

  /** In sequential mode a call is a fetch cycle. */
  predicate SequentialInv(s: System) {
    var n := |s.lane.fetches|;
    && !s.inFlight && s.alive == {} && !s.timedOut
    && match s.consumer
       case Inline(_) => n > 0 && |s.returned| == n - 1 && Handed(s, n - 1)
       case Idle => |s.returned| == n && Handed(s, n)
       case Destroying => s.lane.core.cancelled && |s.returned| == n && Handed(s, n)
       case Closing => s.lane.core.cancelled && |s.returned| == n && Handed(s, n)
       case Closed => s.lane.core.cancelled && |s.returned| == n && Handed(s, n)
       case _ => false
  }

  /** The prefetched result that is still to be handed out is the newest worker's. */
  predicate FlightInv(s: System) {
    var n := |s.lane.fetches|;
    && n > 0 && |s.returned| == n - 1 && Handed(s, n - 1) && !s.timedOut
    && (s.ready <==> n - 1 !in s.alive)
    && (s.ready ==> !Running(s.lane.fetches[n - 1])
                    && s.slot == s.lane.fetches[n - 1].pc.result)
  }

  /** What the consumer holds between collecting a result and returning it. */
  predicate HeldInv(s: System, r: Result) {
    var n := |s.lane.fetches|;
    && n > 0 && |s.returned| == n - 1 && Handed(s, n - 1)
    && (s.timedOut ==> r == Failed(NETWORK) && s.lane.core.cancelled)
    && (!s.timedOut ==> n - 1 !in s.alive && !Running(s.lane.fetches[n - 1])
                        && r == s.lane.fetches[n - 1].pc.result)
  }

  /** Nothing is in flight any more: each worker's result was handed out once, except that a
      timeout stands in for the last; what is returned from here on is made up on the spot. */
  predicate StoppedInv(s: System) {
    var n := |s.lane.fetches|;
    && s.lane.core.done && |s.returned| >= n
    && (s.timedOut ==> n > 0 && s.lane.core.cancelled && Handed(s, n - 1)
                       && s.returned[n - 1].result == Failed(NETWORK))
    && (!s.timedOut ==> Handed(s, n) && (n > 0 ==> n - 1 !in s.alive))
    && forall i :: n <= i < |s.returned| ==>
         s.returned[i].result == Failed(EXHAUSTED) || s.returned[i].result == Failed(CANCELLED)
  }

  predicate RestInv(s: System) { if s.inFlight then FlightInv(s) else StoppedInv(s) }

  predicate PrefetchInv(s: System) {
    match s.consumer
    case Inline(_) => false
    case Idle => RestInv(s)
    case Waiting(_) => s.inFlight && FlightInv(s)
    case Collected(r, _) => s.inFlight && HeldInv(s, r)
    case Deciding(r, exhausted, _) =>
      !s.inFlight && HeldInv(s, r) && (!s.timedOut ==> exhausted == s.lane.core.cursor.exhausted)
    case Joining(r, _) => !s.inFlight && HeldInv(s, r) && !s.timedOut && !s.lane.core.cursor.exhausted
    case Arming(r, _) => !s.inFlight && HeldInv(s, r) && !s.timedOut && !s.lane.core.cursor.exhausted
    case Spawning(r, _) =>
      !s.inFlight && HeldInv(s, r) && !s.timedOut && !s.ready && !s.lane.core.cursor.exhausted
    case Stopping(r, _) => !s.inFlight && HeldInv(s, r)
    case Destroying => s.lane.core.cancelled && RestInv(s)
    case Closing => s.lane.core.cancelled && RestInv(s)
    case Closed => s.lane.core.cancelled && RestInv(s) && s.alive == {}
  }

  predicate Inv(e: Setup, s: System) {
    && OneWorker(s)
    && if Enabled(e) then PrefetchInv(s) else SequentialInv(s)
  }

  lemma InitialInv(e: Setup)
    ensures Inv(e, Initial(e))
  {
  }

  lemma CallInv(e: Setup, s: System)
    requires Inv(e, s)
    ensures Inv(e, DoCall(e, s))
  {
  }

  lemma HandInv(e: Setup, s: System)
    requires Inv(e, s) && (s.consumer.Inline? || s.consumer.Stopping?)
    ensures Inv(e, DoConsume(s))
  {
  }

  lemma CollectInv(e: Setup, s: System)
    requires Inv(e, s) && (s.consumer.Waiting? || s.consumer.Collected?)
    ensures Inv(e, DoConsume(s))
  {
  }

  lemma DecideInv(e: Setup, s: System)
    requires Inv(e, s) && s.consumer.Deciding?
    ensures Inv(e, DoConsume(s))
  {
  }

  lemma RestartInv(e: Setup, s: System)
    requires Inv(e, s) && (s.consumer.Joining? || s.consumer.Arming?)
    ensures Inv(e, DoConsume(s))
  {
  }

  lemma SpawnInv(e: Setup, s: System)
    requires Inv(e, s) && s.consumer.Spawning?
    ensures Inv(e, DoConsume(s))
  {
  }

  lemma CloseInv(e: Setup, s: System)
    requires Inv(e, s) && (s.consumer.Destroying? || s.consumer.Closing?)
    ensures Inv(e, DoConsume(s))
  {
  }

  lemma ConsumeInv(e: Setup, s: System)
    requires Inv(e, s)
    ensures Inv(e, DoConsume(s))
  {
    match s.consumer
    case Inline(_) => HandInv(e, s);
    case Stopping(_, _) => HandInv(e, s);
    case Waiting(_) => CollectInv(e, s);
    case Collected(_, _) => CollectInv(e, s);
    case Deciding(_, _, _) => DecideInv(e, s);
    case Joining(_, _) => RestartInv(e, s);
    case Arming(_, _) => RestartInv(e, s);
    case Spawning(_, _) => SpawnInv(e, s);
    case Destroying => CloseInv(e, s);
    case Closing => CloseInv(e, s);
    case _ =>
  }

  lemma TimeoutInv(e: Setup, s: System)
    requires Inv(e, s)
    ensures Inv(e, Do(e, s, Timeout))
  {
  }

  lemma DestroyInv(e: Setup, s: System)
    requires Inv(e, s)
    ensures Inv(e, Do(e, s, Destroy))
  {
  }

  lemma CancelSetRest(s: System)
    requires RestInv(s)
    ensures RestInv(SetCancelled(s).(pendingDone := s.pendingDone + 1))
  {
  }

  lemma CancelSetInv(e: Setup, s: System)
    requires Inv(e, s)
    ensures Inv(e, Do(e, s, CancelSet))
  {
    if RestInv(s) { CancelSetRest(s); }
  }

  lemma CancelDoneInv(e: Setup, s: System)
    requires Inv(e, s)
    ensures Inv(e, Do(e, s, CancelDone))
  {
  }

  lemma WorkInv(e: Setup, s: System, i: nat)
    requires Inv(e, s)
    ensures Inv(e, DoWork(e, s, i))
  {
  }

  lemma PublishInv(e: Setup, s: System, i: nat)
    requires Inv(e, s)
    ensures Inv(e, DoPublish(s, i))
  {
  }

  lemma DoInv(e: Setup, s: System, a: Action)
    requires Inv(e, s)
    ensures Inv(e, Do(e, s, a))
  {
    match a
    case Call => CallInv(e, s);
    case Consume => ConsumeInv(e, s);
    case Work(i) => WorkInv(e, s, i);
    case Publish(i) => PublishInv(e, s, i);
    case Timeout => TimeoutInv(e, s);
    case CancelSet => CancelSetInv(e, s);
    case CancelDone => CancelDoneInv(e, s);
    case Destroy => DestroyInv(e, s);
  }

  /** The protocol invariant holds after every schedule of consumer, workers, cancellers,
      timeouts and destruction. */
  lemma {:induction false} ProtocolInvariant(e: Setup, acts: seq<Action>)
    ensures Inv(e, Exec(e, acts))
  {
    if acts == [] {
      InitialInv(e);
    } else {
      ProtocolInvariant(e, acts[..|acts| - 1]);
      DoInv(e, Exec(e, acts[..|acts| - 1]), acts[|acts| - 1]);
    }
  }

  // ---- What stays true along a schedule ----

  /** Every action keeps `p`, in states where the protocol invariant holds. */
  ghost predicate Stable(e: Setup, p: System -> bool) {
    forall s: System, a: Action {:trigger Do(e, s, a)} :: Inv(e, s) && p(s) ==> p(Do(e, s, a))
  }

  /** `run` gives the states of this setup's machine, schedule by schedule. */
  ghost predicate IsRun(e: Setup, run: seq<Action> -> System) {
    && (forall acts: seq<Action>, a: Action {:trigger run(acts + [a])} ::
          run(acts + [a]) == Do(e, run(acts), a))
    && (forall acts: seq<Action> {:trigger run(acts)} :: Inv(e, run(acts)))
  }

  lemma {:induction false} PersistsOn(
    e: Setup, run: seq<Action> -> System, p: System -> bool, acts: seq<Action>, more: seq<Action>)
    requires IsRun(e, run) && Stable(e, p) && p(run(acts))
    ensures p(run(acts + more))
    decreases |more|
  {
    if more == [] {
      assert acts + more == acts;
    } else {
      var longer := acts + [more[0]];
      assert run(longer) == Do(e, run(acts), more[0]);
      PersistsOn(e, run, p, longer, more[1..]);
      assert longer + more[1..] == acts + more;
    }
  }

  lemma ExecIsRun(e: Setup)
    ensures IsRun(e, (acts: seq<Action>) => Exec(e, acts))
  {
    forall acts: seq<Action>, a: Action
      ensures Exec(e, acts + [a]) == Do(e, Exec(e, acts), a)
    {
      ExecAppend(e, acts, a);
    }
    forall acts: seq<Action>
      ensures Inv(e, Exec(e, acts))
    {
      ProtocolInvariant(e, acts);
    }
  }

  /** A property that every action keeps, once true, is true ever after. */
  lemma Persists(e: Setup, p: System -> bool, acts: seq<Action>, more: seq<Action>)
    requires Stable(e, p) && p(Exec(e, acts))
    ensures p(Exec(e, acts + more))
  {
    ExecIsRun(e);
    PersistsOn(e, (acts: seq<Action>) => Exec(e, acts), p, acts, more);
  }
}
