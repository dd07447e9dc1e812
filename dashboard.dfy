/** The figures of the dashboard (`Dashboard.tsx`): income, expense and balance over all
    transactions, and the project counts of the status pie and the active-works card. */
module Dashboard {
  import opened Types
  import opened Lists
  import Store

  /** `reduce((acc, t) => acc + t.amount, 0)`: the total of the amounts. Integer addition
      is associative, so summing from the right gives the same total. */
  function SumAmounts(ts: seq<Transaction>): int {
    if ts == [] then 0 else ts[0].amount + SumAmounts(ts[1..])
  }

  /** The total of all income, whatever its status. */
  function Income(ts: seq<Transaction>): int {
    SumAmounts(Filter(ts, OfKind(INCOME)))
  }

  /** The total of all expenses, whatever their status. */
  function Expense(ts: seq<Transaction>): int {
    SumAmounts(Filter(ts, OfKind(EXPENSE)))
  }

  function Balance(ts: seq<Transaction>): int {
    Income(ts) - Expense(ts)
  }

  /** How one transaction in front of the list moves income and expense. */
  lemma TotalsCons(t: Transaction, ts: seq<Transaction>)
    ensures Income([t] + ts) == Income(ts) + (if t.kind == INCOME then t.amount else 0)
    ensures Expense([t] + ts) == Expense(ts) + (if t.kind == EXPENSE then t.amount else 0)
  {
    FilterCons(t, ts, OfKind(INCOME));
    FilterCons(t, ts, OfKind(EXPENSE));
    if t.kind == INCOME {
      assert Filter([t] + ts, OfKind(INCOME))[1..] == Filter(ts, OfKind(INCOME));
    } else {
      assert Filter([t] + ts, OfKind(EXPENSE))[1..] == Filter(ts, OfKind(EXPENSE));
    }
  }

  /** Every transaction is income or expense, so the two totals add up to the total of all
      amounts. */
  lemma {:induction false} IncomePlusExpense(ts: seq<Transaction>)
    ensures Income(ts) + Expense(ts) == SumAmounts(ts)
    decreases |ts|
  {
    if ts != [] {
      IncomePlusExpense(ts[1..]);
      assert [ts[0]] + ts[1..] == ts;
      TotalsCons(ts[0], ts[1..]);
    }
  }

  /** A transaction put in front of the list moves the balance by its amount: up for
      income, down for an expense. */
  lemma BalanceCons(t: Transaction, ts: seq<Transaction>)
    ensures Balance([t] + ts) == Balance(ts) + (if t.kind == INCOME then t.amount else -t.amount)
  {
    TotalsCons(t, ts);
  }

  /** Approving an existing purchase order lowers the balance by its total estimate. */
  lemma ApprovalLowersBalance(d: Store.Collections, poId: string, txAt: Store.Instant, stockAt: Store.Instant, k: nat)
    requires k < |d.purchaseOrders| && d.purchaseOrders[k].id == poId
    requires forall j :: 0 <= j < k ==> d.purchaseOrders[j].id != poId
    ensures Balance(Store.Approve(d, poId, txAt, stockAt).transactions)
            == Balance(d.transactions) - d.purchaseOrders[k].totalEstimate
  {
    Store.ApproveKnownOrder(d, poId, txAt, stockAt, k);
    var r := Store.Approve(d, poId, txAt, stockAt);
    assert r.transactions == [r.transactions[0]] + d.transactions;
    BalanceCons(r.transactions[0], d.transactions);
  }

  /** Status plays no part: two lists that differ only in the transactions' statuses have
      the same totals. */
  lemma {:induction false} StatusIgnored(ts: seq<Transaction>, us: seq<Transaction>)
    requires |ts| == |us|
    requires forall i :: 0 <= i < |ts| ==> us[i] == ts[i].(status := us[i].status)
    ensures Income(ts) == Income(us) && Expense(ts) == Expense(us)
    decreases |ts|
  {
    if ts != [] {
      StatusIgnored(ts[1..], us[1..]);
      assert [ts[0]] + ts[1..] == ts;
      assert [us[0]] + us[1..] == us;
      TotalsCons(ts[0], ts[1..]);
      TotalsCons(us[0], us[1..]);
    }
  }

  // ---------------------------------------------------------------- project counts

  function HasStatus(s: ProjectStatus): Project -> bool {
    (p: Project) => p.status == s
  }

  /** Counting by filter agrees with counting the positions that hold the status. */
  lemma {:induction false} FilterCountsPositions(ps: seq<Project>, s: ProjectStatus)
    ensures |Filter(ps, HasStatus(s))| == |set i | 0 <= i < |ps| && ps[i].status == s|
    decreases |ps|
  {
    if ps != [] {
      var init, last := ps[..|ps| - 1], ps[|ps| - 1];
      FilterCountsPositions(init, s);
      assert ps == init + [last];
      FilterConcat(init, [last], HasStatus(s));
      FilterCons(last, [], HasStatus(s));
      assert [last] + [] == [last];
      var before := set i | 0 <= i < |init| && init[i].status == s;
      var after := set i | 0 <= i < |ps| && ps[i].status == s;
      if last.status == s {
        assert after == before + {|init|};
      } else {
        assert after == before;
      }
    }
  }

  /** `projects.filter(p => p.status === s).length`: the number of projects with that
      status. */
  function CountStatus(ps: seq<Project>, s: ProjectStatus): (n: nat)
    ensures n <= |ps|
    ensures n == |set i | 0 <= i < |ps| && ps[i].status == s|
  {
    FilterCountsPositions(ps, s);
    |Filter(ps, HasStatus(s))|
  }

  /** The pie slices: planning, in progress, completed, each the number of projects with
      that status. */
  function PieCounts(ps: seq<Project>): (r: seq<nat>)
    ensures |r| == 3
    ensures r[0] == |set i | 0 <= i < |ps| && ps[i].status == PLANNING|
    ensures r[1] == |set i | 0 <= i < |ps| && ps[i].status == IN_PROGRESS|
    ensures r[2] == |set i | 0 <= i < |ps| && ps[i].status == COMPLETED|
  {
    [CountStatus(ps, PLANNING), CountStatus(ps, IN_PROGRESS), CountStatus(ps, COMPLETED)]
  }

  /** The works card: the number of projects in progress, the pie's middle slice. */
  function ActiveWorks(ps: seq<Project>): (n: nat)
    ensures n == |set i | 0 <= i < |ps| && ps[i].status == IN_PROGRESS|
    ensures n == PieCounts(ps)[1]
  {
    CountStatus(ps, IN_PROGRESS)
  }

  /** The four status counts add up to the number of projects. */
  lemma {:induction false} StatusCountsCover(ps: seq<Project>)
    ensures CountStatus(ps, PLANNING) + CountStatus(ps, IN_PROGRESS) + CountStatus(ps, COMPLETED)
            + CountStatus(ps, PAUSED) == |ps|
    decreases |ps|
  {
    if ps != [] {
      StatusCountsCover(ps[1..]);
      assert [ps[0]] + ps[1..] == ps;
      FilterCons(ps[0], ps[1..], HasStatus(PLANNING));
      FilterCons(ps[0], ps[1..], HasStatus(IN_PROGRESS));
      FilterCons(ps[0], ps[1..], HasStatus(COMPLETED));
      FilterCons(ps[0], ps[1..], HasStatus(PAUSED));
    }
  }

  /** The pie leaves paused projects out: its slices add up to the number of projects
      exactly when none is paused. */
  lemma PieCoversUnpaused(ps: seq<Project>)
    ensures PieCounts(ps)[0] + PieCounts(ps)[1] + PieCounts(ps)[2] == |ps| - CountStatus(ps, PAUSED)
    ensures PieCounts(ps)[0] + PieCounts(ps)[1] + PieCounts(ps)[2] <= |ps|
  {
    StatusCountsCover(ps);
  }
}
