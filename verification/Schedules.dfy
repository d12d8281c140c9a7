/**
 Every run of a fetch cycle among meddling threads is a schedule of the machine in sequential
 mode, so all that is proved of schedules holds of the engine object.
 */
module Schedules {
  import opened Wire
  import opened Fetching
  import opened Prefetch
  import opened Interference

  /** A cancel() that has stored its first flag and not its second can still store it. */
  predicate CanFinishCancel(s: System) {
    s.lane.core.cancelled && !s.lane.core.done ==> s.pendingDone > 0
  }

  /** `t` is `s` after the others stored what `m` says. */
  predicate Meddled(s: System, m: Meddling, t: System) {
    && CanFinishCancel(t)
    && t == s.(lane := s.lane.(core := Meddle(s.lane.core, m)), pendingDone := t.pendingDone)
  }

  lemma FlagStored(e: Setup, s: System)
    requires CanFinishCancel(s)
    ensures Meddled(s, Meddling(true, false), Do(e, s, CancelSet))
  {
  }

  lemma DoneStored(e: Setup, s: System)
    requires CanFinishCancel(s) && s.lane.core.cancelled && !s.lane.core.done
    ensures Meddled(s, Meddling(false, true), Do(e, s, CancelDone))
  {
  }

  lemma MeddledTwice(s: System, t: System, u: System, m: Meddling)
    requires CanFinishCancel(s)
    requires Meddled(s, Meddling(m.flag, false), t) && Meddled(t, Meddling(false, m.done), u)
    ensures Meddled(s, m, u)
  {
  }

  lemma MeddleOn(e: Setup, run: seq<Action> -> System, acts: seq<Action>, m: Meddling)
    returns (more: seq<Action>)
    requires IsRun(e, run) && CanFinishCancel(run(acts))
    ensures Meddled(run(acts), m, run(acts + more))
  {
    var s := run(acts);
    var first: seq<Action> := if m.flag then [CancelSet] else [];
    var t := run(acts + first);
    if m.flag {
      assert t == Do(e, s, CancelSet);
      FlagStored(e, s);
    } else {
      assert acts + first == acts;
    }

    if m.done && t.lane.core.cancelled && !t.lane.core.done {
      more := first + [CancelDone];
      assert acts + more == acts + first + [CancelDone];
      assert run(acts + first + [CancelDone]) == Do(e, t, CancelDone);
      DoneStored(e, t);
    } else {
      more := first;
    }
    MeddledTwice(s, t, run(acts + more), m);
  }

  lemma MeddleIsSchedule(e: Setup, acts: seq<Action>, m: Meddling) returns (more: seq<Action>)
    requires CanFinishCancel(Exec(e, acts))
    ensures Meddled(Exec(e, acts), m, Exec(e, acts + more))
  {
    ExecIsRun(e);
    more := MeddleOn(e, (acts: seq<Action>) => Exec(e, acts), acts, m);
  }

  /** Sequential mode, inside fetch_one. */
  predicate InCycle(e: Setup, s: System, f: Fetch, c: Core) {
    && !Enabled(e) && s.consumer.Inline? && CanFinishCancel(s)
    && s.lane.fetches != [] && Last(s.lane) == f && s.lane.core == c
  }

  /** `t` is `s` but for the cycle under way and the flags. */
  predicate SameCall(s: System, t: System) {
    && t.consumer == s.consumer && t.returned == s.returned
    && |t.lane.fetches| == |s.lane.fetches| && s.lane.fetches != []
    && t.lane.fetches[..|t.lane.fetches| - 1] == s.lane.fetches[..|s.lane.fetches| - 1]
  }

  lemma StepOn(
    e: Setup, run: seq<Action> -> System, acts: seq<Action>, m: Meddling, f: Fetch, c: Core)
    returns (more: seq<Action>)
    requires IsRun(e, run) && InCycle(e, run(acts), f, c) && Running(f)
    ensures var (g, d) := Step(e, f, Meddle(c, m)); InCycle(e, run(acts + more), g, d)
    ensures SameCall(run(acts), run(acts + more))
  {
    var met := MeddleOn(e, run, acts, m);
    var n := |run(acts).lane.fetches| - 1;
    more := met + [Work(n)];
    assert run(acts + met + [Work(n)]) == Do(e, run(acts + met), Work(n));
    assert acts + met + [Work(n)] == acts + more;
    StepKeepsCancel(e, f, Meddle(c, m));
  }

  lemma HandleKeepsFlags(e: Setup, f: Fetch, c: Core)
    requires f.pc.Handle?
    ensures var d := HandleError(e, f, c).1; d.cancelled == c.cancelled && d.done == c.done
  {
  }

  lemma StepKeepsCancel(e: Setup, f: Fetch, c: Core)
    requires Running(f)
    ensures var d := Step(e, f, c).1; d.cancelled == c.cancelled && (c.done ==> d.done)
  {
    if f.pc.Handle? { HandleKeepsFlags(e, f, c); }
  }

  lemma UnderOneStep(e: Setup, f: Fetch, c: Core, others: Others, t: nat)
    requires Running(f)
    ensures var (g, d) := Step(e, f, Meddle(c, others(t)));
            RunUnder(e, f, c, others, t) == RunUnder(e, g, d, others, t + 1)
  {
  }

  lemma SameCallThrough(s: System, t: System, u: System)
    requires SameCall(s, t) && SameCall(t, u)
    ensures SameCall(s, u)
  {
  }

  lemma {:induction false} CycleOn(
    e: Setup, run: seq<Action> -> System, acts: seq<Action>, others: Others, t: nat,
    f: Fetch, c: Core)
    returns (more: seq<Action>)
    requires IsRun(e, run) && InCycle(e, run(acts), f, c)
    ensures var (g, d, _) := RunUnder(e, f, c, others, t); InCycle(e, run(acts + more), g, d)
    ensures SameCall(run(acts), run(acts + more))
    decreases Max(0, e.policy.maxRetries - f.retry), Rank(f.pc)
  {
    if Running(f) {
      var seen := Meddle(c, others(t));
      StepDescends(e, f, seen);
      var (g, d) := Step(e, f, seen);
      var first := StepOn(e, run, acts, others(t), f, c);
      UnderOneStep(e, f, c, others, t);
      var rest := CycleOn(e, run, acts + first, others, t + 1, g, d);
      more := first + rest;
      assert acts + first + rest == acts + more;
      SameCallThrough(run(acts), run(acts + first), run(acts + more));
    } else {
      more := [];
      assert acts + more == acts;
    }
  }

  /** `t` is inside the call begun in `s`. */
  predicate Inside(e: Setup, s: System, f: Fetch, c: Core, t: System) {
    && InCycle(e, t, f, c)
    && t.consumer == Inline(s.lane.core.cancelled) && t.returned == s.returned
    && |t.lane.fetches| == |s.lane.fetches| + 1
    && t.lane.fetches[..|s.lane.fetches|] == s.lane.fetches
  }

  lemma Enters(e: Setup, s: System)
    requires !Enabled(e) && s.consumer.Idle? && CanFinishCancel(s)
    ensures Inside(e, s, Begin(s.lane.core), s.lane.core, Do(e, s, Call))
  {
  }

  /** `u` is `s` after a call whose cycle ended as `f`, with the engine then in state `c`. */
  predicate Called(s: System, f: Fetch, c: Core, u: System)
    requires !Running(f)
  {
    && u.consumer.Idle? && CanFinishCancel(u)
    && u.lane == Lane(c, s.lane.fetches + [f])
    && u.returned == s.returned + [Return.Return(f.pc.result, s.lane.core.cancelled)]
  }

  lemma HandsOver(e: Setup, s: System, t: System, f: Fetch, c: Core)
    requires Inside(e, s, f, c, t) && !Running(f)
    ensures Called(s, f, c, Do(e, t, Consume))
  {
    assert t.lane.fetches == s.lane.fetches + [Last(t.lane)];
  }

  lemma CallRuns(
    e: Setup, run: seq<Action> -> System, s: System, acts: seq<Action>, others: Others, t: nat,
    f: Fetch, c: Core)
    returns (more: seq<Action>)
    requires IsRun(e, run) && Inside(e, s, f, c, run(acts))
    ensures var r := RunUnder(e, f, c, others, t); Called(s, r.0, r.1, run(acts + more))
  {
    var rest := CycleOn(e, run, acts, others, t, f, c);
    var r := RunUnder(e, f, c, others, t);
    HandsOver(e, s, run(acts + rest), r.0, r.1);
    more := rest + [Consume];
    assert run(acts + rest + [Consume]) == Do(e, run(acts + rest), Consume);
    assert acts + more == acts + rest + [Consume];
  }

  lemma CallOn(
    e: Setup, run: seq<Action> -> System, acts: seq<Action>, others: Others, t: nat,
    f: Fetch, c: Core)
    returns (more: seq<Action>)
    requires IsRun(e, run) && !Enabled(e) && run(acts).consumer.Idle? && CanFinishCancel(run(acts))
    requires c == run(acts).lane.core && f == Begin(c)
    ensures var r := RunUnder(e, f, c, others, t); Called(run(acts), r.0, r.1, run(acts + more))
  {
    var begun := acts + [Call];
    Enters(e, run(acts));
    assert run(begun) == Do(e, run(acts), Call);
    var rest := CallRuns(e, run, run(acts), begun, others, t, f, c);
    more := [Call] + rest;
    assert acts + more == begun + rest;
  }

  /** A call of fetch_one, whatever the others do meanwhile, is a schedule of the machine. */
  lemma CallIsSchedule(e: Setup, acts: seq<Action>, others: Others, t: nat)
    returns (more: seq<Action>)
    requires !Enabled(e) && Exec(e, acts).consumer.Idle? && CanFinishCancel(Exec(e, acts))
    ensures var s := Exec(e, acts);
            var r := RunUnder(e, Begin(s.lane.core), s.lane.core, others, t);
            Called(s, r.0, r.1, Exec(e, acts + more))
  {
    ExecIsRun(e);
    more := CallOn(e, (acts: seq<Action>) => Exec(e, acts), acts, others, t,
                   Begin(Exec(e, acts).lane.core), Exec(e, acts).lane.core);
  }

  const QUIET: Others := (t: nat) => Meddling(false, false)

  lemma QuietCall(e: Setup, s: System, f: Fetch, c: Core, u: System)
    requires !Running(f) && Called(s, f, c, u)
    requires (f, c) == RunFetch(e, Begin(s.lane.core), s.lane.core)
    requires Quiet(s.lane)
    ensures u.lane == Complete(e, BeginFetch(s.lane))
  {
    var l := BeginFetch(s.lane);
    assert l.fetches[|l.fetches| - 1 := f] == s.lane.fetches + [f];
  }

  /** The sequential reference is itself a schedule: n calls with nobody meddling. */
  lemma {:induction false} SequentialIsSchedule(e: Setup, n: nat) returns (acts: seq<Action>)
    requires !Enabled(e)
    ensures var s := Exec(e, acts);
            s.lane == Sequential(e, n) && s.consumer.Idle? && CanFinishCancel(s)
  {
    if n == 0 {
      acts := [];
    } else {
      var before := SequentialIsSchedule(e, n - 1);
      var s := Exec(e, before);
      var more := CallIsSchedule(e, before, QUIET, 0);
      UndisturbedRun(e, Begin(s.lane.core), s.lane.core, QUIET, 0);
      acts := before + more;
      var r := RunUnder(e, Begin(s.lane.core), s.lane.core, QUIET, 0);
      QuietCall(e, s, r.0, r.1, Exec(e, acts));
    }
  }
}
