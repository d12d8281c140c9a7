/**
 A budgeted run on a server that always answers, with a constant cost per page: how many calls
 succeed, and what the next one says.
 */
module BudgetRuns {
  import opened Wire
  import opened Fetching
  import opened Prefetch
  import opened Refinement
  import opened Chain
  import opened Faultless
  import opened Budget

  /** The first n pages of the chain can be read and cost c each, and there is more after them. */
  predicate Priced(e: Setup, server: Server, n: nat, c: real) {
    && (forall k: nat :: k <= n ==> !ChainCursor(e, server, k).exhausted)
    && (forall k: nat :: k < n ==>
          && ChainBatch(e, server, k).Some?
          && e.adapter.cost(Read(e, server, ChainCursor(e, server, k)).0) == Some(c))
  }

  /** Every page is served, under a budget of b. */
  ghost predicate Budgeted(e: Setup, server: Server, b: real) {
    HistoryFree(e.adapter) && Serving(e, server) && e.policy.budget == Some(b) && b > 0.0
  }

  /** n responses at c each reach the budget, and no fewer. */
  predicate Reaches(n: nat, b: real, c: real) {
    n > 0 && Times(n - 1, c) < b <= Times(n, c)
  }

  lemma CeilProduct(b: real, c: real, n: int)
    requires b > 0.0 && c > 0.0 && n == Ceil(b / c)
    ensures n > 0 && (n - 1) as real * c < b <= n as real * c
  {
    var x := b / c;
    assert x * c == b;
    assert x > 0.0 && (n - 1) as real < x <= n as real;
    CancelFactor((n - 1) as real, x, c);
    CancelFactor(n as real, x, c);
  }

  lemma CeilReaches(b: real, c: real)
    requires b > 0.0 && c > 0.0
    ensures Ceil(b / c) > 0 && Reaches(Ceil(b / c), b, c)
  {
    var n := Ceil(b / c);
    CeilProduct(b, c, n);
    TimesIsProduct(n - 1, c);
    TimesIsProduct(n, c);
  }

  lemma {:induction false} TimesGrows(k: nat, n: nat, c: real)
    requires k <= n && c > 0.0
    ensures Times(k, c) <= Times(n, c)
  {
    if k < n { TimesGrows(k, n - 1, c); }
  }

  lemma {:induction false} BudgetedState(
    e: Setup, server: Server, n: nat, b: real, c: real, k: nat)
    requires Budgeted(e, server, b) && Priced(e, server, n, c) && c > 0.0 && Reaches(n, b, c)
    requires k <= n
    ensures var l := Sequential(e, k);
            && !l.core.cancelled && l.core.cursor == ChainCursor(e, server, k)
            && l.core.spent == Times(k, c)
    ensures k > 0 ==> Last(Sequential(e, k)).pc == Returned(Yielded(ChainBatch(e, server, k - 1).value))
  {
    if k > 0 {
      BudgetedState(e, server, n, b, c, k - 1);
      TimesGrows(k - 1, n - 1, c);
      FaultlessFetch(e, server, Sequential(e, k - 1), k - 1);
    }
  }

  /** The first cycle that finds the budget spent is turned away. */
  lemma TurnedAwayAtBudget(e: Setup, l: Lane)
    requires Quiet(l) && !l.core.cancelled && !l.core.cursor.exhausted
    requires BudgetExceeded(e.policy, l.core.spent)
    ensures Last(Complete(e, BeginFetch(l))).pc == Returned(Failed(BUDGET_EXHAUSTED))
  {
    var f, c := Begin(l.core), l.core;
    RunOn(e, f, c);
    RunOn(e, f.(pc := CheckCancel), c);
    RunOn(e, f.(pc := CheckBudget), c);
  }

  lemma BudgetedResult(e: Setup, server: Server, n: nat, b: real, c: real, k: nat)
    requires Budgeted(e, server, b) && Priced(e, server, n, c) && c > 0.0 && Reaches(n, b, c)
    requires k <= n
    ensures SequentialResult(e, k)
         == if k < n then Yielded(ChainBatch(e, server, k).value) else Failed(BUDGET_EXHAUSTED)
  {
    if k < n {
      BudgetedState(e, server, n, b, c, k + 1);
    } else {
      BudgetedState(e, server, n, b, c, n);
      TurnedAwayAtBudget(e, Sequential(e, n));
    }
  }

  lemma BudgetedLives(e: Setup, server: Server, n: nat, b: real, c: real, k: nat)
    requires Budgeted(e, server, b) && Priced(e, server, n, c) && c > 0.0 && Reaches(n, b, c)
    requires k <= n
    ensures Live(e, k)
  {
    assert !ChainCursor(e, server, 0).exhausted;
    forall j | 0 <= j < k
      ensures !StopsAfter(e, j)
    {
      BudgetedState(e, server, n, b, c, j + 1);
      BudgetedResult(e, server, n, b, c, j);
    }
  }

  /** On a chain long enough, at a constant cost c > 0 a page and with nothing going wrong, the
      first ceil(budget / c) calls return the first pages and the next returns BUDGET_EXHAUSTED, in
      both modes. */
  lemma BudgetedDelivers(
    e: Setup, server: Server, b: real, c: real, acts: seq<Action>, k: nat)
    requires c > 0.0 && b > 0.0 && Budgeted(e, server, b)
    requires Ceil(b / c) > 0 ==> Priced(e, server, Ceil(b / c), c)
    requires !Exec(e, acts).lane.core.cancelled && k < |Exec(e, acts).returned|
    requires k <= Ceil(b / c)
    ensures Exec(e, acts).returned[k].result
         == if k < Ceil(b / c) then Yielded(ChainBatch(e, server, k).value)
            else Failed(BUDGET_EXHAUSTED)
  {
    CeilReaches(b, c);
    var n := Ceil(b / c);
    BudgetedResult(e, server, n, b, c, k);
    if Enabled(e) {
      PrefetchRefinesSequential(e, acts, k);
      BudgetedLives(e, server, n, b, c, k);
    } else {
      InlineIsSequential(e, acts, k);
    }
  }
}
