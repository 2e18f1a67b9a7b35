/** The aggregates over several accounts: `rollup_balance` over a rollup account's
    children, the class-level `balance` over every account of one type, and
    `trial_balance` over the five types. The two loops of the Ruby code are
    methods; each is proved equal to a specification function, and the meaning of
    the aggregate (contra flags cancel, which accounts make it fail) is proved
    about that function. */
module Aggregation {
  import opened LedgerTypes
  import opened AmountLedger
  import opened Accounts

  /** The rows a query on subclass `t` returns (`all` on `t`), in chart order. It is
      used on the five subclasses only: the class-level `balance` refuses the base
      class before querying, so the base-class query, which returns every row, is
      not modelled here. */
  function OfType(t: AccountType, chart: seq<Account>): (s: seq<Account>)
    ensures |s| <= |chart|
  {
    if chart == [] then []
    else
      var a := chart[|chart| - 1];
      OfType(t, chart[..|chart| - 1]) + (if a.kind == t then [a] else [])
  }

  /** The query on `t` returns exactly the chart's rows of type `t`, each as often as
      the chart holds it. */
  lemma {:induction false} OfTypeMembers(t: AccountType, chart: seq<Account>)
    ensures forall a :: multiset(OfType(t, chart))[a] == if a.kind == t then multiset(chart)[a] else 0
    ensures forall a :: a in OfType(t, chart) <==> a in chart && a.kind == t
  {
    if chart != [] {
      var init := chart[..|chart| - 1];
      assert chart == init + [chart[|chart| - 1]];
      OfTypeMembers(t, init);
    }
  }

  /** The normal-side balances of the accounts, contra flags ignored. */
  function NaturalSum(accounts: seq<Account>, ledger: seq<Amount>, w: Window): int {
    if accounts == [] then 0
    else
      var a := accounts[|accounts| - 1];
      NaturalSum(accounts[..|accounts| - 1], ledger, w)
        + NaturalBalance(a.kind, DebitsBalance(a, ledger, w), CreditsBalance(a, ledger, w))
  }

  /** What both loops compute: the instance balances of the accounts in order,
      subtracting those of contra accounts and adding the others, stopping at the
      first account whose balance fails. When it succeeds the two contra inversions
      have cancelled: every account adds its normal-side balance whatever its contra
      flag. */
  function SignedSum(accounts: seq<Account>, ledger: seq<Amount>, w: Window): Result<int> {
    if accounts == [] then Ok(0)
    else
      var a := accounts[|accounts| - 1];
      var total :- SignedSum(accounts[..|accounts| - 1], ledger, w);
      var b :- Balance(a, ledger, w);
      Ok(if a.contra then total - b else total + b)
  }

  /** When the sum succeeds the two contra inversions have cancelled: it is the
      accounts' normal-side balances. */
  lemma {:induction false} SignedSumIsNatural(accounts: seq<Account>, ledger: seq<Amount>, w: Window)
    ensures SignedSum(accounts, ledger, w).Ok? ==> SignedSum(accounts, ledger, w).value == NaturalSum(accounts, ledger, w)
  {
    if accounts != [] {
      SignedSumIsNatural(accounts[..|accounts| - 1], ledger, w);
    }
  }

  /** The sum fails exactly when some account is of the base class or a rollup
      account; among concrete accounts the failure is always a rollup account's. */
  lemma {:induction false} SignedSumFails(accounts: seq<Account>, ledger: seq<Amount>, w: Window)
    ensures SignedSum(accounts, ledger, w).Err? <==> exists a | a in accounts :: a.kind == Abstract || IsRollup(a)
    ensures (forall a | a in accounts :: a.kind != Abstract) && SignedSum(accounts, ledger, w).Err?
      ==> SignedSum(accounts, ledger, w).error == BalanceOnRollup
  {
    if accounts != [] {
      var init := accounts[..|accounts| - 1];
      var a := accounts[|accounts| - 1];
      assert accounts == init + [a];
      SignedSumFails(init, ledger, w);
    }
  }

  /** Once a prefix fails, the whole sum fails with the same error. */
  lemma {:induction false} SignedSumStopsAtFailure(accounts: seq<Account>, i: nat, ledger: seq<Amount>, w: Window)
    requires i <= |accounts|
    requires SignedSum(accounts[..i], ledger, w).Err?
    ensures SignedSum(accounts, ledger, w) == SignedSum(accounts[..i], ledger, w)
    decreases |accounts| - i
  {
    if i < |accounts| {
      var next := accounts[..i + 1];
      assert next[..|next| - 1] == accounts[..i];
      SignedSumStopsAtFailure(accounts, i + 1, ledger, w);
    } else {
      assert accounts[..i] == accounts;
    }
  }

  /** One step of the loops: the sum over one more account. */
  lemma SignedSumStep(accounts: seq<Account>, i: nat, ledger: seq<Amount>, w: Window)
    requires i < |accounts|
    requires SignedSum(accounts[..i], ledger, w).Ok?
    ensures
      var total := SignedSum(accounts[..i], ledger, w).value;
      var b := Balance(accounts[i], ledger, w);
      SignedSum(accounts[..i + 1], ledger, w)
        == if b.Err? then Err(b.error)
           else Ok(if accounts[i].contra then total - b.value else total + b.value)
  {
    var next := accounts[..i + 1];
    assert next[..|next| - 1] == accounts[..i];
    assert next[|next| - 1] == accounts[i];
  }

  /** `rollup_balance`, as a value: fails on a normal account; otherwise the signed
      sum over the children, which when it succeeds is the children's normal-side
      balances, contra children included with the same sign as the others. */
  function RollupBalanceOf(r: Account, chart: seq<Account>, ledger: seq<Amount>, w: Window): (res: Result<int>)
    ensures !IsRollup(r) ==> res == Err(RollupBalanceOnNormal)
  {
    if !IsRollup(r) then Err(RollupBalanceOnNormal)
    else SignedSum(ChildAccounts(r, chart).value, ledger, w)
  }

  /** For a rollup account of a concrete type `rollup_balance` never fails (its
      children are never rollup accounts and share its type); it is zero when the
      account has no children. */
  lemma RollupBalanceSucceeds(r: Account, chart: seq<Account>, ledger: seq<Amount>, w: Window)
    requires IsRollup(r) && r.kind != Abstract
    ensures RollupBalanceOf(r, chart, ledger, w) == Ok(NaturalSum(SelectChildren(r, chart), ledger, w))
    ensures (forall c | c in chart :: !IsChildOf(r, c)) ==> RollupBalanceOf(r, chart, ledger, w) == Ok(0)
  {
    SignedSumFails(SelectChildren(r, chart), ledger, w);
    SignedSumIsNatural(SelectChildren(r, chart), ledger, w);
    if forall c | c in chart :: !IsChildOf(r, c) {
      NoChildren(r, chart);
    }
  }

  /** For an account of a concrete type exactly one of `balance` and
      `rollup_balance` succeeds: `balance` on a normal account, `rollup_balance` on a
      rollup account. */
  lemma ExactlyOneBalanceSucceeds(a: Account, chart: seq<Account>, ledger: seq<Amount>, w: Window)
    requires a.kind != Abstract
    ensures Balance(a, ledger, w).Ok? <==> !IsRollup(a)
    ensures RollupBalanceOf(a, chart, ledger, w).Ok? <==> IsRollup(a)
  {
    if IsRollup(a) {
      RollupBalanceSucceeds(a, chart, ledger, w);
    }
  }

  /** The loop both `rollup_balance` and the class-level `balance` run: ask each
      account for its `balance` with the same window, subtract it for a contra
      account and add it otherwise; the first failing `balance` ends the loop. */
  method AddUpBalances(accounts: seq<Account>, ledger: seq<Amount>, w: Window) returns (res: Result<int>)
    ensures res == SignedSum(accounts, ledger, w)
  {
    var total := 0;
    var i := 0;
    while i < |accounts|
      invariant 0 <= i <= |accounts|
      invariant SignedSum(accounts[..i], ledger, w) == Ok(total)
    {
      var a := accounts[i];
      SignedSumStep(accounts, i, ledger, w);
      var b := Balance(a, ledger, w);
      if b.Err? {
        SignedSumStopsAtFailure(accounts, i + 1, ledger, w);
        return Err(b.error);
      }
      if a.contra {
        total := total - b.value;
      } else {
        total := total + b.value;
      }
      i := i + 1;
    }
    assert accounts[..i] == accounts;
    return Ok(total);
  }

  /** `rollup_balance`: fails on a normal account, otherwise adds up the balances
      of `child_accounts`. */
  method RollupBalance(r: Account, chart: seq<Account>, ledger: seq<Amount>, w: Window) returns (res: Result<int>)
    ensures res == RollupBalanceOf(r, chart, ledger, w)
  {
    if !IsRollup(r) {
      return Err(RollupBalanceOnNormal);
    }
    var children := ChildAccounts(r, chart).value;
    res := AddUpBalances(children, ledger, w);
  }

  /** Class-level `balance`, as a value: fails on the base class; otherwise the
      signed sum over every account of the type, which when it succeeds is their
      normal-side balances, contra accounts included with the same sign as the
      others. */
  function ClassBalanceOf(t: AccountType, chart: seq<Account>, ledger: seq<Amount>, w: Window): (res: Result<int>)
    ensures t == Abstract ==> res == Err(UndefinedOnBaseType)
  {
    if t == Abstract then Err(UndefinedOnBaseType)
    else SignedSum(OfType(t, chart), ledger, w)
  }

  /** Class-level `balance` fails on the base class, and on a concrete type exactly
      when the chart holds a rollup account of that type, whose instance `balance`
      fails. */
  lemma ClassBalanceFails(t: AccountType, chart: seq<Account>, ledger: seq<Amount>, w: Window)
    ensures ClassBalanceOf(t, chart, ledger, w).Err?
        <==> t == Abstract || exists a | a in chart :: a.kind == t && IsRollup(a)
    ensures ClassBalanceOf(t, chart, ledger, w).Err? && t != Abstract
        ==> ClassBalanceOf(t, chart, ledger, w).error == BalanceOnRollup
  {
    if t != Abstract {
      OfTypeMembers(t, chart);
      SignedSumFails(OfType(t, chart), ledger, w);
    }
  }

  /** Class-level `balance`: fails on the base class, otherwise adds up the
      balances of every account of type `t`. */
  method ClassBalance(t: AccountType, chart: seq<Account>, ledger: seq<Amount>, w: Window) returns (res: Result<int>)
    ensures res == ClassBalanceOf(t, chart, ledger, w)
  {
    if t == Abstract {
      return Err(UndefinedOnBaseType);
    }
    var accounts := OfType(t, chart);
    res := AddUpBalances(accounts, ledger, w);
  }

  /** `trial_balance`: Asset − (Liability + Equity + Revenue − Expense), each over all
      time, evaluated in that order, the first failure ending it. The guard on the
      base class follows the documented intent (see the as-written model in module
      AsWritten). */
  function TrialBalance(chart: seq<Account>, ledger: seq<Amount>): Result<int> {
    CombineClassBalances(
      ClassBalanceOf(Asset, chart, ledger, AllTime), ClassBalanceOf(Liability, chart, ledger, AllTime),
      ClassBalanceOf(Equity, chart, ledger, AllTime), ClassBalanceOf(Revenue, chart, ledger, AllTime),
      ClassBalanceOf(Expense, chart, ledger, AllTime))
  }

  /** The arithmetic of `trial_balance` on the five class balances, taken in order,
      the first failure ending it. */
  function CombineClassBalances(assets: Result<int>, liabilities: Result<int>, equity: Result<int>,
                                revenue: Result<int>, expenses: Result<int>): (r: Result<int>)
    ensures r.Err? ==> r == assets || r == liabilities || r == equity || r == revenue || r == expenses
    ensures r.Ok? <==> assets.Ok? && liabilities.Ok? && equity.Ok? && revenue.Ok? && expenses.Ok?
  {
    if assets.Err? then assets
    else if liabilities.Err? then liabilities
    else if equity.Err? then equity
    else if revenue.Err? then revenue
    else if expenses.Err? then expenses
    else Ok(assets.value - (liabilities.value + equity.value + revenue.value - expenses.value))
  }

  /** The trial balance fails exactly when the chart holds a rollup account of a
      concrete type, and then always because `balance` was run on a rollup account. */
  lemma TrialBalanceFails(chart: seq<Account>, ledger: seq<Amount>)
    ensures TrialBalance(chart, ledger).Err? <==> exists a | a in chart :: a.kind != Abstract && IsRollup(a)
    ensures TrialBalance(chart, ledger).Err? ==> TrialBalance(chart, ledger).error == BalanceOnRollup
  {
    ClassBalanceFails(Asset, chart, ledger, AllTime);
    ClassBalanceFails(Liability, chart, ledger, AllTime);
    ClassBalanceFails(Equity, chart, ledger, AllTime);
    ClassBalanceFails(Revenue, chart, ledger, AllTime);
    ClassBalanceFails(Expense, chart, ledger, AllTime);
  }
}
