/**
 Every interleaving of the prefetch protocol, seen from the engine state, is a run of the lane:
 fetch cycles one after the other, with cancellation in between. What is proved of every lane
 run therefore holds in both modes and under every schedule.
 */
module Projection {
  import opened Wire
  import opened Fetching
  import opened Prefetch

  /** What an action does to the lane. */
  function TicksOf(e: Setup, s: System, a: Action): seq<Tick> {
    match a
    case Call => if s.consumer.Idle? && !Enabled(e) then [BeginTick] else []
    case Consume =>
      if s.consumer.Spawning? then [BeginTick]
      else if s.consumer.Stopping? || s.consumer.Destroying? then [DoneTick]
      else []
    case Timeout => if s.consumer.Waiting? && !s.ready then [CancelTick] else []
    case Work(i) => if DoWork(e, s, i) == s then [] else [StepTick]
    case Publish(i) => []
    case CancelSet => [CancelTick]
    case CancelDone => if s.pendingDone > 0 then [DoneTick] else []
    case Destroy => if s.consumer.Idle? then [CancelTick] else []
  }

  lemma ActionIsTick(e: Setup, s: System, a: Action)
    requires Inv(e, s)
    ensures TicksOf(e, s, a) == [] ==> Do(e, s, a).lane == s.lane
    ensures TicksOf(e, s, a) != [] ==> Do(e, s, a).lane == Play1(e, s.lane, TicksOf(e, s, a)[0])
  {
    match a
    case Work(i) =>
      if DoWork(e, s, i) != s {
        assert i == Newest(s);
        assert DoWork(e, s, i).lane == StepFetch(e, s.lane);
      }
    case Consume =>
      if s.consumer.Spawning? { assert Quiet(s.lane); }
    case _ =>
  }

  function Ticks(e: Setup, acts: seq<Action>): seq<Tick> {
    if acts == [] then
      if Enabled(e) && !e.initial.exhausted then [BeginTick] else []
    else
      var before := acts[..|acts| - 1];
      Ticks(e, before) + TicksOf(e, Exec(e, before), acts[|acts| - 1])
  }

  lemma PlayAppend(e: Setup, ticks: seq<Tick>, t: Tick)
    ensures Play(e, ticks + [t]) == Play1(e, Play(e, ticks), t)
  {
    assert (ticks + [t])[..|ticks|] == ticks;
  }

  lemma InitialIsPlay(e: Setup)
    ensures Initial(e).lane == Play(e, Ticks(e, []))
  {
    assert [] + [BeginTick] == [BeginTick];
    PlayAppend(e, [], BeginTick);
  }

  lemma ActionPlays(e: Setup, s: System, ticks: seq<Tick>, a: Action)
    requires Inv(e, s) && s.lane == Play(e, ticks)
    ensures Do(e, s, a).lane == Play(e, ticks + TicksOf(e, s, a))
  {
    var t := TicksOf(e, s, a);
    ActionIsTick(e, s, a);
    if t == [] {
      assert ticks + t == ticks;
    } else {
      assert t == [t[0]];
      PlayAppend(e, ticks, t[0]);
    }
  }

  /** The engine state after a schedule is the lane after the schedule's ticks. */
  lemma {:induction false} ExecIsPlay(e: Setup, acts: seq<Action>)
    ensures Exec(e, acts).lane == Play(e, Ticks(e, acts))
  {
    if acts == [] {
      InitialIsPlay(e);
    } else {
      var before := acts[..|acts| - 1];
      ExecIsPlay(e, before);
      ProtocolInvariant(e, before);
      ActionPlays(e, Exec(e, before), Ticks(e, before), acts[|acts| - 1]);
    }
  }

  // ---- The sequential reference as a run of the lane ----

  /** `play` gives the lanes of this setup, tick by tick. */
  ghost predicate IsPlay(e: Setup, play: seq<Tick> -> Lane) {
    forall ticks: seq<Tick>, t: Tick {:trigger play(ticks + [t])} ::
      play(ticks + [t]) == Play1(e, play(ticks), t)
  }

  /** One step of the current cycle, towards the same end. */
  lemma StepTowards(e: Setup, l: Lane) returns (l': Lane)
    requires l.fetches != [] && !Quiet(l)
    ensures l' == Play1(e, l, StepTick) && l'.fetches != []
    ensures Complete(e, l') == Complete(e, l)
    ensures var f, g := Last(l), Last(l');
            || (g.retry == f.retry && Rank(g.pc) < Rank(f.pc))
            || (g.retry == f.retry + 1 && f.retry < e.policy.maxRetries)
  {
    l' := StepFetch(e, l);
    StepDescends(e, Last(l), l.core);
    CompleteAfterStep(e, l);
  }

  lemma CompleteIsPlayOn(
    e: Setup, play: seq<Tick> -> Lane, ticks: seq<Tick>, l: Lane) returns (more: seq<Tick>)
    requires IsPlay(e, play) && play(ticks) == l && l.fetches != []
    ensures play(ticks + more) == Complete(e, l)
    decreases Max(0, e.policy.maxRetries - Last(l).retry), Rank(Last(l).pc)
  {
    if Quiet(l) {
      more := [];
      assert ticks + more == ticks;
    } else {
      var l' := StepTowards(e, l);
      var longer := ticks + [StepTick];
      var rest := CompleteIsPlayOn(e, play, longer, l');
      more := [StepTick] + rest;
      assert longer + rest == ticks + more;
    }
  }

  /** Letting the current cycle run to its end takes some ticks. */
  lemma CompleteIsPlay(e: Setup, ticks: seq<Tick>, l: Lane) returns (more: seq<Tick>)
    requires Play(e, ticks) == l && l.fetches != []
    ensures Play(e, ticks + more) == Complete(e, l)
  {
    forall ticks: seq<Tick>, t: Tick
      ensures Play(e, ticks + [t]) == Play1(e, Play(e, ticks), t)
    {
      PlayAppend(e, ticks, t);
    }
    more := CompleteIsPlayOn(e, (ticks: seq<Tick>) => Play(e, ticks), ticks, l);
  }

  /** n undisturbed calls of fetch_one are a run of the lane, in either mode. */
  lemma {:induction false} SequentialIsPlay(e: Setup, n: nat) returns (ticks: seq<Tick>)
    ensures Play(e, ticks) == Sequential(e, n)
  {
    if n == 0 {
      ticks := [];
    } else {
      var before := SequentialIsPlay(e, n - 1);
      PlayAppend(e, before, BeginTick);
      var more := CompleteIsPlay(e, before + [BeginTick], BeginFetch(Sequential(e, n - 1)));
      ticks := before + [BeginTick] + more;
    }
  }
}
