/** The accounting equation. After the contra flags cancel, every account adds
    its debits less its credits to the trial balance, so over a chart of concrete,
    non-rollup accounts with distinct ids the trial balance is the ledger's total
    debits less its total credits, and zero for a ledger of balanced entries.
    Skipping the rollup rows, the same holds for a chart with rollup headings. */
module TrialBalanceTheorem {
  import opened LedgerTypes
  import opened AmountLedger
  import opened Accounts
  import opened Aggregation

  /** The account ids of a chart. */
  function Ids(chart: seq<Account>): set<nat> {
    if chart == [] then {} else Ids(chart[..|chart| - 1]) + {chart[|chart| - 1].id}
  }

  /** No two rows of the chart share an id: each row's id is new to the rows
      before it. */
  predicate UniqueIds(chart: seq<Account>) {
    chart == [] || (UniqueIds(chart[..|chart| - 1]) && chart[|chart| - 1].id !in Ids(chart[..|chart| - 1]))
  }

  /** `Ids` holds exactly the ids of the chart's rows. */
  lemma {:induction false} IdsOfRows(chart: seq<Account>)
    ensures forall k :: k in Ids(chart) <==> exists i | 0 <= i < |chart| :: chart[i].id == k
  {
    if chart != [] {
      var init := chart[..|chart| - 1];
      IdsOfRows(init);
      forall k | k in Ids(chart) ensures exists i | 0 <= i < |chart| :: chart[i].id == k {
        if k in Ids(init) {
          var i :| 0 <= i < |init| && init[i].id == k;
          assert chart[i] == init[i];
        } else {
          assert chart[|chart| - 1].id == k;
        }
      }
      forall k | exists i | 0 <= i < |chart| :: chart[i].id == k ensures k in Ids(chart) {
        var i :| 0 <= i < |chart| && chart[i].id == k;
        if i < |chart| - 1 {
          assert init[i] == chart[i];
        }
      }
    }
  }

  /** `UniqueIds` is the usual statement that no two rows share an id. */
  lemma {:induction false} UniqueIdsOfRows(chart: seq<Account>)
    ensures UniqueIds(chart) <==> forall i, j | 0 <= i < j < |chart| :: chart[i].id != chart[j].id
  {
    if chart != [] {
      var init := chart[..|chart| - 1];
      var last := chart[|chart| - 1];
      UniqueIdsOfRows(init);
      IdsOfRows(init);
      if UniqueIds(chart) {
        forall i, j | 0 <= i < j < |chart| ensures chart[i].id != chart[j].id {
          assert chart[i] == init[i];
          if j < |chart| - 1 {
            assert chart[j] == init[j];
          }
        }
      }
      if forall i, j | 0 <= i < j < |chart| :: chart[i].id != chart[j].id {
        forall i, j | 0 <= i < j < |init| ensures init[i].id != init[j].id {
          assert init[i] == chart[i] && init[j] == chart[j];
        }
      }
    }
  }

  /** An account's debits less its credits. */
  function NetBalance(a: Account, ledger: seq<Amount>, w: Window): int {
    DebitsBalance(a, ledger, w) - CreditsBalance(a, ledger, w)
  }

  /** The debits less credits of every account in a chart. */
  function NetSum(chart: seq<Account>, ledger: seq<Amount>, w: Window): int {
    if chart == [] then 0
    else NetSum(chart[..|chart| - 1], ledger, w) + NetBalance(chart[|chart| - 1], ledger, w)
  }

  /** The `side` balances of every account in a chart. */
  function ChartSideSum(chart: seq<Account>, ledger: seq<Amount>, side: Side, w: Window): int {
    if chart == [] then 0
    else ChartSideSum(chart[..|chart| - 1], ledger, side, w) + SideTotal(ledger, chart[|chart| - 1].id, side, w)
  }

  /** Over accounts of one type the normal-side balances are the net debits for a
      debit-normal type and their negation for a credit-normal one. */
  lemma {:induction false} NaturalSumOfOneType(t: AccountType, s: seq<Account>, ledger: seq<Amount>, w: Window)
    requires forall a | a in s :: a.kind == t
    ensures NaturalSum(s, ledger, w) == if NormalCredit(t) then -NetSum(s, ledger, w) else NetSum(s, ledger, w)
  {
    if s != [] {
      var init := s[..|s| - 1];
      assert forall a | a in init :: a in s;
      assert s[|s| - 1] in s;
      NaturalSumOfOneType(t, init, ledger, w);
    }
  }

  /** The net debits of one more account. */
  lemma NetSumSnoc(s: seq<Account>, a: Account, ledger: seq<Amount>, w: Window)
    ensures NetSum(s + [a], ledger, w) == NetSum(s, ledger, w) + NetBalance(a, ledger, w)
  {
    assert (s + [a])[..|s|] == s;
  }

  /** The net debits of a chart of concrete accounts split by account type. */
  lemma {:induction false} NetSumByType(chart: seq<Account>, ledger: seq<Amount>, w: Window)
    requires forall a | a in chart :: a.kind != Abstract
    ensures NetSum(chart, ledger, w)
         == NetSum(OfType(Asset, chart), ledger, w) + NetSum(OfType(Liability, chart), ledger, w)
          + NetSum(OfType(Equity, chart), ledger, w) + NetSum(OfType(Revenue, chart), ledger, w)
          + NetSum(OfType(Expense, chart), ledger, w)
  {
    if chart != [] {
      var init := chart[..|chart| - 1];
      var a := chart[|chart| - 1];
      assert forall b | b in init :: b in chart;
      assert a in chart;
      NetSumByType(init, ledger, w);
      NetSumOfTypeStep(Asset, chart, ledger, w);
      NetSumOfTypeStep(Liability, chart, ledger, w);
      NetSumOfTypeStep(Equity, chart, ledger, w);
      NetSumOfTypeStep(Revenue, chart, ledger, w);
      NetSumOfTypeStep(Expense, chart, ledger, w);
    }
  }

  /** The net debits of the accounts of type `t` in a chart with one more row. */
  lemma NetSumOfTypeStep(t: AccountType, chart: seq<Account>, ledger: seq<Amount>, w: Window)
    requires chart != []
    ensures
      var a := chart[|chart| - 1];
      NetSum(OfType(t, chart), ledger, w)
        == NetSum(OfType(t, chart[..|chart| - 1]), ledger, w) + (if a.kind == t then NetBalance(a, ledger, w) else 0)
  {
    var a := chart[|chart| - 1];
    if a.kind == t {
      NetSumSnoc(OfType(t, chart[..|chart| - 1]), a, ledger, w);
    } else {
      assert OfType(t, chart) == OfType(t, chart[..|chart| - 1]) + [];
      assert OfType(t, chart[..|chart| - 1]) + [] == OfType(t, chart[..|chart| - 1]);
    }
  }

  /** Net debits are the debit side less the credit side, summed per side. */
  lemma {:induction false} NetSumBySide(chart: seq<Account>, ledger: seq<Amount>, w: Window)
    ensures NetSum(chart, ledger, w) == ChartSideSum(chart, ledger, Debit, w) - ChartSideSum(chart, ledger, Credit, w)
  {
    if chart != [] {
      NetSumBySide(chart[..|chart| - 1], ledger, w);
    }
  }

  /** One more amount moves the `side` balances of a chart with distinct ids by its
      value exactly when it is a `side` amount in the window that belongs to one of
      the chart's accounts. */
  lemma {:induction false} ChartSideSumSnoc(chart: seq<Account>, ledger: seq<Amount>, x: Amount, side: Side, w: Window)
    requires UniqueIds(chart)
    ensures ChartSideSum(chart, ledger + [x], side, w)
         == ChartSideSum(chart, ledger, side, w)
          + (if x.accountId in Ids(chart) && x.side == side && w.Contains(x.date) then x.value else 0)
  {
    if chart != [] {
      var init := chart[..|chart| - 1];
      ChartSideSumSnoc(init, ledger, x, side, w);
      assert (ledger + [x])[..|ledger|] == ledger;
    }
  }

  /** Summed over a chart with distinct ids that owns every amount, the accounts'
      `side` balances make up the ledger's whole `side` total. */
  lemma {:induction false} ChartSideSumIsLedgerTotal(chart: seq<Account>, ledger: seq<Amount>, side: Side, w: Window)
    requires UniqueIds(chart)
    requires forall x | x in ledger :: x.accountId in Ids(chart)
    ensures ChartSideSum(chart, ledger, side, w) == LedgerTotal(ledger, side, w)
  {
    if ledger == [] {
      ChartSideSumOfEmptyLedger(chart, side, w);
    } else {
      var init := ledger[..|ledger| - 1];
      var x := ledger[|ledger| - 1];
      assert ledger == init + [x];
      assert forall y | y in init :: y in ledger;
      assert x in ledger;
      ChartSideSumIsLedgerTotal(chart, init, side, w);
      ChartSideSumSnoc(chart, init, x, side, w);
    }
  }

  lemma {:induction false} ChartSideSumOfEmptyLedger(chart: seq<Account>, side: Side, w: Window)
    ensures ChartSideSum(chart, [], side, w) == 0
  {
    if chart != [] {
      ChartSideSumOfEmptyLedger(chart[..|chart| - 1], side, w);
    }
  }

  /** Every row of the chart is a concrete, non-rollup account, stated row by row
      from the front. */
  predicate ConcreteLeaves(chart: seq<Account>) {
    chart == [] || (ConcreteLeaves(chart[..|chart| - 1])
                    && chart[|chart| - 1].kind != Abstract && !IsRollup(chart[|chart| - 1]))
  }

  lemma {:induction false} ConcreteLeavesOfRows(chart: seq<Account>)
    ensures ConcreteLeaves(chart) <==> forall a | a in chart :: a.kind != Abstract && !IsRollup(a)
  {
    if chart != [] {
      var init := chart[..|chart| - 1];
      assert chart == init + [chart[|chart| - 1]];
      ConcreteLeavesOfRows(init);
    }
  }

  /** Every row of such a chart has a concrete type. */
  lemma {:induction false} ConcreteLeavesAreConcrete(chart: seq<Account>)
    requires ConcreteLeaves(chart)
    ensures forall a | a in chart :: a.kind != Abstract
  {
    if chart != [] {
      var init := chart[..|chart| - 1];
      assert chart == init + [chart[|chart| - 1]];
      ConcreteLeavesAreConcrete(init);
    }
  }

  /** Over a chart without rollup accounts, the class-level balance of a concrete
      type is the net debits of its accounts for a debit-normal type and their
      negation for a credit-normal one, contra accounts included. */
  lemma ClassBalanceIsNet(t: AccountType, chart: seq<Account>, ledger: seq<Amount>, w: Window)
    ensures t != Abstract && ConcreteLeaves(chart) ==>
      ClassBalanceOf(t, chart, ledger, w)
        == Ok(if NormalCredit(t) then -NetSum(OfType(t, chart), ledger, w) else NetSum(OfType(t, chart), ledger, w))
  {
    if t != Abstract && ConcreteLeaves(chart) {
      ConcreteLeavesOfRows(chart);
      ClassBalanceFails(t, chart, ledger, w);
      OfTypeMembers(t, chart);
      SignedSumIsNatural(OfType(t, chart), ledger, w);
      NaturalSumOfOneType(t, OfType(t, chart), ledger, w);
    }
  }

  /** The debit-normal classes, Asset and Expense, show their net debits. */
  lemma DebitClassesAreNet(chart: seq<Account>, ledger: seq<Amount>)
    ensures ConcreteLeaves(chart) ==>
      ClassBalanceOf(Asset, chart, ledger, AllTime) == Ok(NetSum(OfType(Asset, chart), ledger, AllTime))
      && ClassBalanceOf(Expense, chart, ledger, AllTime) == Ok(NetSum(OfType(Expense, chart), ledger, AllTime))
  {
    ClassBalanceIsNet(Asset, chart, ledger, AllTime);
    ClassBalanceIsNet(Expense, chart, ledger, AllTime);
  }

  /** The credit-normal classes, Liability, Equity and Revenue, show their net
      credits. */
  lemma CreditClassesAreNet(chart: seq<Account>, ledger: seq<Amount>)
    ensures ConcreteLeaves(chart) ==>
      ClassBalanceOf(Liability, chart, ledger, AllTime) == Ok(-NetSum(OfType(Liability, chart), ledger, AllTime))
      && ClassBalanceOf(Equity, chart, ledger, AllTime) == Ok(-NetSum(OfType(Equity, chart), ledger, AllTime))
      && ClassBalanceOf(Revenue, chart, ledger, AllTime) == Ok(-NetSum(OfType(Revenue, chart), ledger, AllTime))
  {
    ClassBalanceIsNet(Liability, chart, ledger, AllTime);
    ClassBalanceIsNet(Equity, chart, ledger, AllTime);
    ClassBalanceIsNet(Revenue, chart, ledger, AllTime);
  }

  /** Over a chart of concrete, non-rollup accounts the trial balance is computable
      and adds up the net debits of the accounts of each type. */
  lemma TrialBalanceByType(chart: seq<Account>, ledger: seq<Amount>)
    requires ConcreteLeaves(chart)
    ensures TrialBalance(chart, ledger)
         == Ok(NetSum(OfType(Asset, chart), ledger, AllTime) + NetSum(OfType(Liability, chart), ledger, AllTime)
             + NetSum(OfType(Equity, chart), ledger, AllTime) + NetSum(OfType(Revenue, chart), ledger, AllTime)
             + NetSum(OfType(Expense, chart), ledger, AllTime))
  {
    DebitClassesAreNet(chart, ledger);
    CreditClassesAreNet(chart, ledger);
    TrialBalanceOfClassBalances(chart, ledger,
      NetSum(OfType(Asset, chart), ledger, AllTime), NetSum(OfType(Liability, chart), ledger, AllTime),
      NetSum(OfType(Equity, chart), ledger, AllTime), NetSum(OfType(Revenue, chart), ledger, AllTime),
      NetSum(OfType(Expense, chart), ledger, AllTime));
  }

  /** After the two contra inversions cancel, every concrete account adds its net
      debits to the trial balance: over a chart of concrete, non-rollup accounts the
      trial balance is computable and is the chart's net debits. */
  lemma TrialBalanceIsNetSum(chart: seq<Account>, ledger: seq<Amount>)
    requires ConcreteLeaves(chart)
    ensures TrialBalance(chart, ledger) == Ok(NetSum(chart, ledger, AllTime))
  {
    ConcreteLeavesAreConcrete(chart);
    TrialBalanceByType(chart, ledger);
    NetSumByType(chart, ledger, AllTime);
  }

  /** Over a chart with distinct ids that owns every amount, the chart's net debits
      are the ledger's total debits less its total credits. */
  lemma NetSumIsLedgerNet(chart: seq<Account>, ledger: seq<Amount>, w: Window)
    requires UniqueIds(chart)
    requires forall x | x in ledger :: x.accountId in Ids(chart)
    ensures NetSum(chart, ledger, w) == LedgerTotal(ledger, Debit, w) - LedgerTotal(ledger, Credit, w)
  {
    NetSumBySide(chart, ledger, w);
    ChartSideSumIsLedgerTotal(chart, ledger, Debit, w);
    ChartSideSumIsLedgerTotal(chart, ledger, Credit, w);
  }

  /** The accounting equation: over a chart of concrete, non-rollup accounts with
      distinct ids that owns every amount, the trial balance is computable and equals
      the ledger's total debits less its total credits. */
  lemma TrialBalanceIsNetDebits(chart: seq<Account>, ledger: seq<Amount>)
    requires UniqueIds(chart)
    requires ConcreteLeaves(chart)
    requires forall x | x in ledger :: x.accountId in Ids(chart)
    ensures TrialBalance(chart, ledger) == Ok(LedgerTotal(ledger, Debit, AllTime) - LedgerTotal(ledger, Credit, AllTime))
  {
    TrialBalanceIsNetSum(chart, ledger);
    NetSumIsLedgerNet(chart, ledger, AllTime);
  }

  /** When all five class-level balances succeed, the trial balance is the Asset
      balance less the Liability, Equity and Revenue balances, plus the Expense
      balance. */
  lemma TrialBalanceOfClassBalances(chart: seq<Account>, ledger: seq<Amount>,
                                    assets: int, liabilities: int, equity: int, revenue: int, expenses: int)
    ensures ClassBalanceOf(Asset, chart, ledger, AllTime) == Ok(assets)
         && ClassBalanceOf(Liability, chart, ledger, AllTime) == Ok(-liabilities)
         && ClassBalanceOf(Equity, chart, ledger, AllTime) == Ok(-equity)
         && ClassBalanceOf(Revenue, chart, ledger, AllTime) == Ok(-revenue)
         && ClassBalanceOf(Expense, chart, ledger, AllTime) == Ok(expenses)
      ==> TrialBalance(chart, ledger) == Ok(assets + liabilities + equity + revenue + expenses)
  {
  }

  /** The trial balance "should always equal zero": it does for any ledger made of
      balanced entries whose lines all belong to a chart of concrete, non-rollup
      accounts with distinct ids. */
  lemma TrialBalanceOfBalancedEntries(chart: seq<Account>, entries: seq<Entry>)
    requires UniqueIds(chart)
    requires ConcreteLeaves(chart)
    requires forall x | x in Post(entries) :: x.accountId in Ids(chart)
    requires forall e | e in entries :: Balanced(e)
    ensures TrialBalance(chart, Post(entries)) == Ok(0)
  {
    TrialBalanceIsNetDebits(chart, Post(entries));
    BalancedEntriesNetZero(entries, AllTime);
  }

  /** The rows that carry amounts of their own: every row but the rollup accounts,
      in chart order. */
  function Leaves(chart: seq<Account>): seq<Account> {
    if chart == [] then []
    else
      var a := chart[|chart| - 1];
      Leaves(chart[..|chart| - 1]) + (if IsRollup(a) then [] else [a])
  }

  /** Of a chart of concrete rows, the leaves are concrete, non-rollup rows. */
  lemma {:induction false} LeavesAreConcreteLeaves(chart: seq<Account>)
    requires forall a | a in chart :: a.kind != Abstract
    ensures ConcreteLeaves(Leaves(chart))
  {
    if chart != [] {
      var init := chart[..|chart| - 1];
      var a := chart[|chart| - 1];
      assert forall b | b in init :: b in chart;
      assert a in chart;
      LeavesAreConcreteLeaves(init);
      var s := Leaves(chart);
      if IsRollup(a) {
        assert s == Leaves(init) + [];
        assert s == Leaves(init);
      } else {
        assert s[..|s| - 1] == Leaves(init);
      }
    }
  }

  /** The leaves keep a subset of the chart's ids, and distinct ids stay distinct. */
  lemma {:induction false} LeavesIds(chart: seq<Account>)
    ensures Ids(Leaves(chart)) <= Ids(chart)
    ensures UniqueIds(chart) ==> UniqueIds(Leaves(chart))
  {
    if chart != [] {
      var init := chart[..|chart| - 1];
      var a := chart[|chart| - 1];
      LeavesIds(init);
      var s := Leaves(chart);
      if IsRollup(a) {
        assert s == Leaves(init) + [];
        assert s == Leaves(init);
      } else {
        assert s[..|s| - 1] == Leaves(init);
      }
    }
  }

  /** The trial balance with each class-level balance taken over the type's
      non-rollup rows only: a rollup account holds no amounts of its own, its
      balance being its children's. */
  function LeafTrialBalance(chart: seq<Account>, ledger: seq<Amount>): Result<int> {
    TrialBalance(Leaves(chart), ledger)
  }

  /** With rollup rows skipped, the trial balance is zero for any ledger of
      balanced entries whose lines all belong to non-rollup rows of a chart of
      concrete accounts with distinct ids, rollup headings included. */
  lemma LeafTrialBalanceOfBalancedEntries(chart: seq<Account>, entries: seq<Entry>)
    requires UniqueIds(chart)
    requires forall a | a in chart :: a.kind != Abstract
    requires forall x | x in Post(entries) :: x.accountId in Ids(Leaves(chart))
    requires forall e | e in entries :: Balanced(e)
    ensures LeafTrialBalance(chart, Post(entries)) == Ok(0)
  {
    LeavesAreConcreteLeaves(chart);
    LeavesIds(chart);
    TrialBalanceOfBalancedEntries(Leaves(chart), entries);
  }
}
