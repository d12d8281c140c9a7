/**
 CostAwarePolicy and what its budget guarantees over whole runs.
 */
module Budget {
  import opened Wire
  import opened Fetching
  import opened Prefetch
  import opened Projection

  /** The policy object. Dollars are always tokens at the configured price. */
  class CostAwarePolicy {
    const budgetTokens: real
    const pricePerToken: real
    var cumulativeTokens: real
    var cumulativeDollars: real

    predicate Valid()
      reads this
    {
      cumulativeDollars == cumulativeTokens * pricePerToken
    }

    /** The budget as the engine's policy slot sees it. */
    ghost predicate Represents(p: Policy, spent: real)
      reads this
    {
      p.budget == Some(budgetTokens) && cumulativeTokens == spent
    }

    constructor (budgetTokens: real, pricePerToken: real)
      ensures Valid() && cumulativeTokens == 0.0
      ensures this.budgetTokens == budgetTokens && this.pricePerToken == pricePerToken
    {
      this.budgetTokens := budgetTokens;
      this.pricePerToken := pricePerToken;
      cumulativeTokens, cumulativeDollars := 0.0, 0.0;
    }

    method RecordCost(costUnits: real)
      requires Valid()
      modifies this
      ensures Valid() && cumulativeTokens == old(cumulativeTokens) + costUnits
      ensures forall p, spent :: old(Represents(p, spent)) ==>
                Represents(p, Fetching.RecordCost(p, spent, Some(costUnits)))
    {
      cumulativeTokens := cumulativeTokens + costUnits;
      cumulativeDollars := cumulativeDollars + costUnits * pricePerToken;
    }

    /** None when no budget is active. */
    method RemainingBudget() returns (r: Option<real>)
      ensures r.Some? <==> budgetTokens > 0.0
      ensures r.Some? ==> r.value + cumulativeTokens == budgetTokens
    {
      if budgetTokens <= 0.0 { return None; }
      return Some(budgetTokens - cumulativeTokens);
    }

    method Exceeded() returns (b: bool)
      ensures forall p, spent :: Represents(p, spent) ==> b == BudgetExceeded(p, spent)
    {
      if budgetTokens <= 0.0 { return false; }
      return cumulativeTokens >= budgetTokens;
    }
  }

  function CostOf(a: Accepted): real { if a.cost.Some? then a.cost.value else 0.0 }

  function SumCosts(log: seq<Accepted>): real {
    if log == [] then 0.0
    else SumCosts(log[..|log| - 1]) + CostOf(log[|log| - 1])
  }

  /** The accepted responses whose cost has been recorded. */
  function Recorded(f: Fetch, c: Core): seq<Accepted> {
    if f.pc.Charge? && c.log != [] then c.log[..|c.log| - 1] else c.log
  }

  predicate PastTheGate(pc: Pc) {
    pc.Loop? || pc.Send? || pc.Handle? || pc.Parse? || pc.Advance? || pc.Charge?
  }

  /** Spending is the sum of the recorded costs; the gate was passed below the budget, and so
      was every accepted response. */
  predicate BudgetInv(e: Setup, f: Fetch, c: Core) {
    && (e.policy.budget.None? ==> c.spent == 0.0)
    && (e.policy.budget.Some? ==> c.spent == SumCosts(Recorded(f, c)))
    && (f.pc.Charge? ==> c.log != [] && c.log[|c.log| - 1].cost == e.adapter.cost(c.adapter))
    && (PastTheGate(f.pc) ==> !BudgetExceeded(e.policy, c.spent))
    && (c.log != [] ==> !BudgetExceeded(e.policy, SumCosts(c.log[..|c.log| - 1])))
  }

  lemma BudgetAdvance(e: Setup, f: Fetch, c: Core)
    requires f.pc.Advance? && BudgetInv(e, f, c)
    ensures var (f', c') := AdvanceCursor(e, f, c); BudgetInv(e, f', c')
  {
    var a := Accepted(f.pc.req, f.pc.batch, e.adapter.cost(c.adapter));
    assert (c.log + [a])[..|c.log|] == c.log;
  }

  lemma BudgetCharge(e: Setup, f: Fetch, c: Core)
    requires f.pc.Charge? && BudgetInv(e, f, c)
    ensures var (f', c') := Step(e, f, c); BudgetInv(e, f', c')
  {
  }

  /** A step that neither accepts nor charges keeps the books as they are. */
  lemma BooksUntouched(e: Setup, f: Fetch, c: Core)
    requires Running(f) && !f.pc.Advance? && !f.pc.Charge?
    ensures var (f', c') := Step(e, f, c);
            && c'.log == c.log && c'.spent == c.spent && !f'.pc.Charge?
            && (PastTheGate(f'.pc) ==> PastTheGate(f.pc) || !BudgetExceeded(e.policy, c.spent))
  {
  }

  lemma BudgetFrame(e: Setup, f: Fetch, c: Core, f': Fetch, c': Core)
    requires BudgetInv(e, f, c) && !f.pc.Charge? && !f'.pc.Charge?
    requires c'.log == c.log && c'.spent == c.spent
    requires PastTheGate(f'.pc) ==> PastTheGate(f.pc) || !BudgetExceeded(e.policy, c.spent)
    ensures BudgetInv(e, f', c')
  {
  }

  lemma BudgetStep(e: Setup, f: Fetch, c: Core)
    requires Running(f) && BudgetInv(e, f, c)
    ensures BudgetInv(e, Step(e, f, c).0, Step(e, f, c).1)
  {
    if f.pc.Advance? {
      BudgetAdvance(e, f, c);
    } else if f.pc.Charge? {
      BudgetCharge(e, f, c);
    } else {
      BooksUntouched(e, f, c);
      BudgetFrame(e, f, c, Step(e, f, c).0, Step(e, f, c).1);
    }
  }

  predicate LaneBudget(e: Setup, l: Lane) {
    if l.fetches == [] then l.core.log == [] && l.core.spent == 0.0
    else BudgetInv(e, Last(l), l.core)
  }

  lemma LaneBudgetTick(e: Setup, l: Lane, t: Tick)
    requires LaneBudget(e, l) && !t.StepTick?
    ensures LaneBudget(e, Play1(e, l, t))
  {
  }

  lemma {:induction false} BudgetHolds(e: Setup, ticks: seq<Tick>)
    ensures LaneBudget(e, Play(e, ticks))
  {
    if ticks != [] {
      var l, t := Play(e, ticks[..|ticks| - 1]), ticks[|ticks| - 1];
      BudgetHolds(e, ticks[..|ticks| - 1]);
      if !t.StepTick? { LaneBudgetTick(e, l, t); }
      else if !Quiet(l) { BudgetStep(e, Last(l), l.core); }
    }
  }

  /** Between fetch cycles the cumulative cost is the sum over the accepted responses. */
  lemma CumulativeIsSum(e: Setup, ticks: seq<Tick>)
    requires e.policy.budget.Some? && Quiet(Play(e, ticks))
    ensures Play(e, ticks).core.spent == SumCosts(Play(e, ticks).core.log)
  {
    BudgetHolds(e, ticks);
  }

  /** No request is issued once the cumulative cost has reached the budget, in either mode. */
  lemma NoRequestOverBudget(e: Setup, acts: seq<Action>)
    ensures var l := Exec(e, acts).lane;
            l.fetches != [] && Last(l).pc.Send? ==> !BudgetExceeded(e.policy, l.core.spent)
  {
    ExecIsPlay(e, acts);
    BudgetHolds(e, Ticks(e, acts));
  }

  /** The final total stays below the budget plus the largest single cost, in either mode. */
  lemma OvershootBound(e: Setup, acts: seq<Action>, b: real, m: real)
    requires e.policy.budget == Some(b) && b > 0.0 && m >= 0.0
    requires var log := Exec(e, acts).lane.core.log;
             forall i :: 0 <= i < |log| ==> CostOf(log[i]) <= m
    ensures Exec(e, acts).lane.core.spent < b + m
  {
    ExecIsPlay(e, acts);
    BudgetHolds(e, Ticks(e, acts));
    LaneOvershoot(e, Exec(e, acts).lane, b, m);
  }

  lemma LaneOvershoot(e: Setup, l: Lane, b: real, m: real)
    requires e.policy.budget == Some(b) && b > 0.0 && m >= 0.0 && LaneBudget(e, l)
    requires forall i :: 0 <= i < |l.core.log| ==> CostOf(l.core.log[i]) <= m
    ensures l.core.spent < b + m
  {
    if l.fetches != [] && l.core.log != [] {
      var before := l.core.log[..|l.core.log| - 1];
      assert SumCosts(l.core.log) == SumCosts(before) + CostOf(l.core.log[|before|]);
      assert SumCosts(before) < b;
    }
  }

  /** n times c, by repeated addition. */
  function Times(n: nat, c: real): real { if n == 0 then 0.0 else Times(n - 1, c) + c }

  lemma {:induction false} TimesIsProduct(n: nat, c: real)
    ensures Times(n, c) == n as real * c
  {
    if n > 0 { TimesIsProduct(n - 1, c); }
  }

  lemma {:induction false} ConstantSum(log: seq<Accepted>, c: real)
    requires forall i :: 0 <= i < |log| ==> CostOf(log[i]) == c
    ensures SumCosts(log) == Times(|log|, c)
  {
    if log != [] { ConstantSum(log[..|log| - 1], c); }
  }

  function Ceil(x: real): int { -((-x).Floor) }

  lemma CancelFactor(a: real, b: real, c: real)
    requires c > 0.0
    ensures a * c < b * c <==> a < b
  {
    assert (b - a) * c == b * c - a * c;
    if a < b { assert (b - a) * c > 0.0; }
    if a > b { assert (a - b) * c > 0.0; }
  }

  lemma CeilBetween(n: nat, x: real)
    requires (n as real) - 1.0 < x <= n as real
    ensures n == Ceil(x)
  {
    var y := -x;
    assert ((0 - n) as real) <= y < ((0 - n) as real) + 1.0;
    assert y.Floor == 0 - n;
  }

  lemma QuotientTimes(b: real, c: real)
    requires c > 0.0
    ensures (b / c) * c == b
  {
  }

  lemma CeilIs(n: nat, b: real, c: real)
    requires c > 0.0 && n > 0 && Times(n - 1, c) < b <= Times(n, c)
    ensures n == Ceil(b / c)
  {
    var x := b / c;
    QuotientTimes(b, c);
    TimesIsProduct(n - 1, c);
    TimesIsProduct(n, c);
    CancelFactor((n - 1) as real, x, c);
    CancelFactor(n as real, x, c);
    CeilBetween(n, x);
  }

  lemma ConstantCostLog(log: seq<Accepted>, b: real, c: real)
    requires b > 0.0 && forall i :: 0 <= i < |log| ==> CostOf(log[i]) == c
    requires SumCosts(log) >= b && (log != [] ==> SumCosts(log[..|log| - 1]) < b)
    ensures |log| > 0 && Times(|log| - 1, c) < b <= Times(|log|, c)
  {
    ConstantSum(log, c);
    assert log != [];
    ConstantSum(log[..|log| - 1], c);
  }

  /** With a constant cost c > 0, exactly ceil(budget / c) responses were accepted by the time a
      fetch cycle returns BUDGET_EXHAUSTED, whatever faults came in between. */
  lemma ConstantCost(e: Setup, acts: seq<Action>, b: real, c: real)
    requires e.policy.budget == Some(b) && b > 0.0 && c > 0.0
    requires var log := Exec(e, acts).lane.core.log;
             forall i :: 0 <= i < |log| ==> log[i].cost == Some(c)
    requires var l := Exec(e, acts).lane;
             l.fetches != [] && Last(l).pc == Returned(Failed(BUDGET_EXHAUSTED))
    ensures |Exec(e, acts).lane.core.log| == Ceil(b / c)
  {
    ExecIsPlay(e, acts);
    BudgetHolds(e, Ticks(e, acts));
    BudgetReturnMeansExceeded(e, Ticks(e, acts));
    ConstantCostLog(Exec(e, acts).lane.core.log, b, c);
    CeilIs(|Exec(e, acts).lane.core.log|, b, c);
  }

  /** BUDGET_EXHAUSTED is never returned below the budget. */
  lemma {:induction false} BudgetReturnMeansExceeded(e: Setup, ticks: seq<Tick>)
    ensures var l := Play(e, ticks);
            l.fetches != [] && Last(l).pc == Returned(Failed(BUDGET_EXHAUSTED))
            ==> BudgetExceeded(e.policy, l.core.spent)
  {
    if ticks != [] {
      var l, t := Play(e, ticks[..|ticks| - 1]), ticks[|ticks| - 1];
      BudgetReturnMeansExceeded(e, ticks[..|ticks| - 1]);
      if t.StepTick? && !Quiet(l) { BudgetReturnStep(e, Last(l), l.core); }
    }
  }

  lemma BudgetReturnStep(e: Setup, f: Fetch, c: Core)
    requires Running(f)
    ensures var (f', c') := Step(e, f, c);
            f'.pc == Returned(Failed(BUDGET_EXHAUSTED)) ==> BudgetExceeded(e.policy, c'.spent)
  {
  }
}
