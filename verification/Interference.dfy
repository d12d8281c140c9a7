/**
 A fetch cycle that runs while other threads call cancel(): what they may do between its steps
 and the run that results.
 */
module Interference {
  import opened Wire
  import opened Fetching

  // ---- The other threads ----

  /** What cancelling threads do between two steps: store cancel_flag_, then stream_done_. */
  datatype Meddling = Meddling(flag: bool, done: bool)

  type Others = nat -> Meddling

  /** cancel() stores stream_done_ only after cancel_flag_. */
  function Meddle(c: Core, m: Meddling): Core {
    var flag := c.cancelled || m.flag;
    c.(cancelled := flag, done := c.done || (m.done && flag))
  }

  /** Run a fetch cycle to its return; before its t-th step the others meddle as `others(t)`. */
  function RunUnder(e: Setup, f: Fetch, c: Core, others: Others, t: nat): (r: (Fetch, Core, nat))
    ensures !Running(r.0)
    decreases Max(0, e.policy.maxRetries - f.retry), Rank(f.pc)
  {
    if Running(f) then
      var seen := Meddle(c, others(t));
      StepDescends(e, f, seen);
      RunUnder(e, Step(e, f, seen).0, Step(e, f, seen).1, others, t + 1)
    else (f, c, t)
  }

  /** With nobody meddling this is the undisturbed run. */
  lemma {:induction false} UndisturbedRun(e: Setup, f: Fetch, c: Core, others: Others, t: nat)
    requires forall k: nat :: others(k) == Meddling(false, false)
    ensures var r := RunUnder(e, f, c, others, t); (r.0, r.1) == RunFetch(e, f, c)
    decreases Max(0, e.policy.maxRetries - f.retry), Rank(f.pc)
  {
    if Running(f) {
      StepDescends(e, f, c);
      UndisturbedRun(e, Step(e, f, c).0, Step(e, f, c).1, others, t + 1);
    }
  }

  // ---- Runs, one step at a time ----

  /** A property of a fetch cycle under way, of the engine state, and of the time. */
  type Path = (Fetch, Core, nat) -> bool

  /** Every step, with the others meddling before it, keeps to the path. */
  ghost predicate KeptBySteps(e: Setup, others: Others, path: Path) {
    forall f: Fetch, c: Core, t: nat {:trigger Step(e, f, Meddle(c, others(t)))} ::
      Running(f) && path(f, c, t)
      ==> path(Step(e, f, Meddle(c, others(t))).0, Step(e, f, Meddle(c, others(t))).1, t + 1)
  }

  /** The path of those states from which the cycle runs to `goal`. */
  function Towards(e: Setup, others: Others, goal: (Fetch, Core, nat)): Path {
    (f: Fetch, c: Core, t: nat) => RunUnder(e, f, c, others, t) == goal
  }

  lemma TowardsIsKept(e: Setup, others: Others, goal: (Fetch, Core, nat))
    ensures KeptBySteps(e, others, Towards(e, others, goal))
  {
  }

  lemma AtEntry(e: Setup, others: Others, path: Path, f: Fetch, c: Core, t: nat)
    requires KeptBySteps(e, others, path) && path(f, c, t) && f.pc.Entry?
    ensures var seen := Meddle(c, others(t));
            if seen.cursor.exhausted then path(Return(f, EXHAUSTED), seen.(done := true), t + 1)
            else path(f.(pc := CheckCancel), seen, t + 1)
  {
    var r := Step(e, f, Meddle(c, others(t)));
  }

  lemma AtCheckCancel(e: Setup, others: Others, path: Path, f: Fetch, c: Core, t: nat)
    requires KeptBySteps(e, others, path) && path(f, c, t) && f.pc.CheckCancel?
    ensures var seen := Meddle(c, others(t));
            path(if seen.cancelled then Return(f, CANCELLED) else f.(pc := CheckBudget), seen, t + 1)
  {
    var r := Step(e, f, Meddle(c, others(t)));
  }

  lemma AtCheckBudget(e: Setup, others: Others, path: Path, f: Fetch, c: Core, t: nat)
    requires KeptBySteps(e, others, path) && path(f, c, t) && f.pc.CheckBudget?
    ensures var seen := Meddle(c, others(t));
            if BudgetExceeded(e.policy, seen.spent)
            then path(Return(f, BUDGET_EXHAUSTED), seen.(done := true), t + 1)
            else path(f.(pc := Loop), seen, t + 1)
  {
    var r := Step(e, f, Meddle(c, others(t)));
  }

  lemma AtLoop(e: Setup, others: Others, path: Path, f: Fetch, c: Core, t: nat)
    requires KeptBySteps(e, others, path) && path(f, c, t) && f.pc.Loop?
    ensures var seen := Meddle(c, others(t));
            path(if seen.cancelled then Return(f, CANCELLED) else f.(pc := Send), seen, t + 1)
  {
    var r := Step(e, f, Meddle(c, others(t)));
  }

  lemma AtSend(e: Setup, others: Others, path: Path, f: Fetch, c: Core, t: nat)
    requires KeptBySteps(e, others, path) && path(f, c, t) && f.pc.Send?
    ensures var r := SendRequest(e, f, Meddle(c, others(t))); path(r.0, r.1, t + 1)
  {
    var r := Step(e, f, Meddle(c, others(t)));
  }

  lemma AtHandle(e: Setup, others: Others, path: Path, f: Fetch, c: Core, t: nat)
    requires KeptBySteps(e, others, path) && path(f, c, t) && f.pc.Handle?
    ensures var r := HandleError(e, f, Meddle(c, others(t))); path(r.0, r.1, t + 1)
  {
    var r := Step(e, f, Meddle(c, others(t)));
  }

  lemma AtParse(e: Setup, others: Others, path: Path, f: Fetch, c: Core, t: nat)
    requires KeptBySteps(e, others, path) && path(f, c, t) && f.pc.Parse?
    ensures var r := ParseResponse(e, f, Meddle(c, others(t))); path(r.0, r.1, t + 1)
  {
    var r := Step(e, f, Meddle(c, others(t)));
  }

  lemma AtAdvance(e: Setup, others: Others, path: Path, f: Fetch, c: Core, t: nat)
    requires KeptBySteps(e, others, path) && path(f, c, t) && f.pc.Advance?
    ensures var r := AdvanceCursor(e, f, Meddle(c, others(t))); path(r.0, r.1, t + 1)
  {
    var r := Step(e, f, Meddle(c, others(t)));
  }

  lemma AtCharge(e: Setup, others: Others, path: Path, f: Fetch, c: Core, t: nat)
    requires KeptBySteps(e, others, path) && path(f, c, t) && f.pc.Charge?
    ensures var seen := Meddle(c, others(t));
            path(f.(pc := Finish(f.pc.batch)),
                 seen.(spent := RecordCost(e.policy, seen.spent, e.adapter.cost(seen.adapter))), t + 1)
  {
    var r := Step(e, f, Meddle(c, others(t)));
  }

  lemma AtFinish(e: Setup, others: Others, path: Path, f: Fetch, c: Core, t: nat)
    requires KeptBySteps(e, others, path) && path(f, c, t) && f.pc.Finish?
    ensures var r := FinishFetch(f, Meddle(c, others(t))); path(r.0, r.1, t + 1)
  {
    var r := Step(e, f, Meddle(c, others(t)));
  }
}
