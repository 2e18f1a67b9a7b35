/** Places where the Ruby code, as written, departs from what its own
    documentation and callers expect, each with a lemma exhibiting an input on
    which it departs. The guard of `balance` and the child-account query are each
    modelled on their own, with the other departures corrected. The guard of
    `trial_balance` is modelled over `TrialBalance`, which keeps the as-written
    class-level sums over rollup rows. Those sums are modelled as written by
    `TrialBalance` itself, and `LeafTrialBalance` is their corrected form. The rest
    of the model uses the corrected members named beside each lemma. */
module AsWritten {
  import opened LedgerTypes
  import opened AmountLedger
  import opened Accounts
  import opened Aggregation
  import opened TrialBalanceTheorem

  /** Instance `balance` with its first guard as written: it raises unless the
      receiver's class IS the base class, so the only accounts that get past it are
      rows of the base class, whose normal side is nil (treated as debit). */
  function BalanceAsWritten(a: Account, ledger: seq<Amount>, w: Window): Result<int> {
    if a.kind != Abstract then Err(UndefinedOnBaseType)
    else if IsRollup(a) then Err(BalanceOnRollup)
    else if a.contra then Ok(CreditsBalance(a, ledger, w) - DebitsBalance(a, ledger, w))
    else Ok(DebitsBalance(a, ledger, w) - CreditsBalance(a, ledger, w))
  }

  /** As written, `balance` refuses every account of a subclass and answers only on
      the base class, the reverse of the documented contract that `Balance` keeps:
      a normal account of a concrete type gets its balance from `Balance` and an
      error from the as-written guard. */
  lemma BalanceGuardInverted(a: Account, ledger: seq<Amount>, w: Window)
    ensures BalanceAsWritten(a, ledger, w).Ok? <==> a.kind == Abstract && !IsRollup(a)
    ensures Balance(a, ledger, w).Ok? <==> a.kind != Abstract && !IsRollup(a)
    ensures !IsRollup(a) ==> BalanceAsWritten(a, ledger, w).Ok? != Balance(a, ledger, w).Ok?
  {
  }

  /** A cash account with no amounts: the as-written guard raises where the
      documented `balance` answers zero. */
  lemma BalanceGuardCounterexample()
    ensures BalanceAsWritten(Account(1, Asset, 101, 100, false, "Cash"), [], AllTime) == Err(UndefinedOnBaseType)
    ensures Balance(Account(1, Asset, 101, 100, false, "Cash"), [], AllTime) == Ok(0)
  {
  }

  /** `child_accounts` with its query as written: the condition joins its two
      comparisons with a comma instead of `AND`, which the database refuses, so a
      rollup receiver never gets an answer. The Ruby method returns a lazy relation
      and the database error surfaces when `rollup_balance` loads it; the model
      reports it at the call, and `rollup_balance` is the only caller. */
  function ChildAccountsAsWritten(r: Account, chart: seq<Account>): Result<seq<Account>> {
    if !IsRollup(r) then Err(NotRollupAccount) else Err(MalformedQuery)
  }

  /** `rollup_balance` over the as-written `child_accounts`. */
  function RollupBalanceAsWritten(r: Account, chart: seq<Account>, ledger: seq<Amount>, w: Window): Result<int> {
    if !IsRollup(r) then Err(RollupBalanceOnNormal)
    else
      match ChildAccountsAsWritten(r, chart)
      case Err(e) => Err(e)
      case Ok(children) => SignedSum(children, ledger, w)
  }

  /** As written, `rollup_balance` fails on every account: with the malformed query
      on a rollup account, with the guard on a normal one. The corrected
      `RollupBalanceOf` succeeds on every rollup account of a concrete type. */
  lemma RollupQueryMalformed(r: Account, chart: seq<Account>, ledger: seq<Amount>, w: Window)
    ensures RollupBalanceAsWritten(r, chart, ledger, w).Err?
    ensures IsRollup(r) ==> RollupBalanceAsWritten(r, chart, ledger, w) == Err(MalformedQuery)
    ensures IsRollup(r) && r.kind != Abstract ==>
      RollupBalanceOf(r, chart, ledger, w) == Ok(NaturalSum(SelectChildren(r, chart), ledger, w))
  {
    if IsRollup(r) && r.kind != Abstract {
      RollupBalanceSucceeds(r, chart, ledger, w);
    }
  }

  /** A cash heading with one child: the as-written query fails where the corrected
      one finds the child and sums its balance. */
  lemma RollupQueryCounterexample()
    ensures RollupBalanceAsWritten(Account(1, Asset, 100, 100, false, "Cash"),
                                   [Account(1, Asset, 100, 100, false, "Cash"), Account(2, Asset, 101, 100, false, "Petty cash")],
                                   [Amount(2, Debit, 5, 0)], AllTime) == Err(MalformedQuery)
    ensures RollupBalanceOf(Account(1, Asset, 100, 100, false, "Cash"),
                            [Account(1, Asset, 100, 100, false, "Cash"), Account(2, Asset, 101, 100, false, "Petty cash")],
                            [Amount(2, Debit, 5, 0)], AllTime) == Ok(5)
  {
    var r := Account(1, Asset, 100, 100, false, "Cash");
    var c := Account(2, Asset, 101, 100, false, "Petty cash");
    var chart := [r, c];
    assert chart[..1] == [r];
    assert [r][..0] == [];
    assert SelectChildren(r, chart) == [c];
    var ledger := [Amount(2, Debit, 5, 0)];
    assert ledger[..0] == [];
    assert DebitsBalance(c, ledger, AllTime) == 5;
    assert CreditsBalance(c, ledger, AllTime) == 0;
    assert [c][..0] == [];
  }

  /** `trial_balance` with its guard as written: it raises when the receiver is the
      base class, which is how the method is meant to be called. On a subclass
      receiver it computes `TrialBalance`, whose instance `balance` calls keep the
      corrected guard; with the guard of `BalanceAsWritten` those calls would
      raise on every account as well. */
  function TrialBalanceAsWritten(receiver: AccountType, chart: seq<Account>, ledger: seq<Amount>): Result<int> {
    if receiver == Abstract then Err(UndefinedOnBaseType) else TrialBalance(chart, ledger)
  }

  /** As written, the documented call on the base class always fails, whatever the
      chart; the corrected `TrialBalance` fails only on a chart holding a rollup
      account of a concrete type, and never with that error. */
  lemma TrialBalanceGuardInverted(chart: seq<Account>, ledger: seq<Amount>)
    ensures TrialBalanceAsWritten(Abstract, chart, ledger) == Err(UndefinedOnBaseType)
    ensures TrialBalance(chart, ledger).Err? <==> exists a | a in chart :: a.kind != Abstract && IsRollup(a)
    ensures TrialBalance(chart, ledger) != Err(UndefinedOnBaseType)
  {
    TrialBalanceFails(chart, ledger);
  }

  /** The empty chart: the documented call raises where the trial balance is zero. */
  lemma TrialBalanceGuardCounterexample()
    ensures TrialBalanceAsWritten(Abstract, [], []) == Err(UndefinedOnBaseType)
    ensures TrialBalance([], []) == Ok(0)
  {
  }

  /** A chart with a cash heading, one cash account and a capital account, and one
      balanced entry moving 500 from capital to cash. */
  const HeadingChart: seq<Account> :=
    [Account(1, Asset, 100, 100, false, "Cash"), Account(2, Asset, 101, 100, false, "Petty cash"),
     Account(3, Equity, 301, 300, false, "Capital")]

  const HeadingEntries: seq<Entry> := [Entry(0, [Posting(2, Debit, 500), Posting(3, Credit, 500)])]

  /** The facts about the heading chart the counterexample needs: distinct ids,
      concrete types, a concrete rollup heading, and non-rollup rows 2 and 3. */
  lemma HeadingChartFacts()
    ensures UniqueIds(HeadingChart)
    ensures forall a | a in HeadingChart :: a.kind != Abstract
    ensures HeadingChart[0] in HeadingChart && HeadingChart[0].kind != Abstract && IsRollup(HeadingChart[0])
    ensures Ids(Leaves(HeadingChart)) == {2, 3}
  {
    var a1, a2, a3 := HeadingChart[0], HeadingChart[1], HeadingChart[2];
    var c1, c2 := [a1], [a1, a2];
    assert c1[..0] == [] && c2[..1] == c1 && HeadingChart[..2] == c2;
    assert Ids(c1) == {1} && Ids(c2) == {1, 2};
    assert UniqueIds(c1) && UniqueIds(c2);
    assert Leaves(c1) == [] + [];
    assert Leaves(c2) == [] + [a2];
    assert Leaves(HeadingChart) == [a2] + [a3];
    var leaves := [a2, a3];
    assert leaves[..1] == [a2] && [a2][..0] == [];
    assert Ids([a2]) == {2};
  }

  /** The entry is balanced and posts a debit of 500 to row 2 and a credit of 500 to
      row 3. */
  lemma HeadingEntriesFacts()
    ensures forall e | e in HeadingEntries :: Balanced(e)
    ensures Post(HeadingEntries) == [Amount(2, Debit, 500, 0), Amount(3, Credit, 500, 0)]
  {
    var e := HeadingEntries[0];
    var ps := e.postings;
    assert HeadingEntries[..0] == [];
    assert ps[..1] == [ps[0]] && [ps[0]][..0] == [];
    assert PostingTotal([ps[0]], Debit) == 500 && PostingTotal([ps[0]], Credit) == 0;
    assert PostingTotal(ps, Debit) == 500 && PostingTotal(ps, Credit) == 500;
    var stamped := Stamp(ps, 0);
    assert stamped[0] == Amount(2, Debit, 500, 0) && stamped[1] == Amount(3, Credit, 500, 0);
    assert Post(HeadingEntries) == [] + stamped;
  }

  /** As written, the class-level `balance` asks every account of its type for its
      `balance`, the rollup heading included, and that call raises: the trial
      balance of the balanced heading ledger fails. */
  lemma RollupHeadingCounterexample()
    ensures TrialBalance(HeadingChart, Post(HeadingEntries)) == Err(BalanceOnRollup)
  {
    HeadingChartFacts();
    TrialBalanceFails(HeadingChart, Post(HeadingEntries));
  }

  /** Skipping the rollup rows, the trial balance of the heading ledger is zero. */
  lemma RollupHeadingSkipped()
    ensures LeafTrialBalance(HeadingChart, Post(HeadingEntries)) == Ok(0)
  {
    HeadingChartFacts();
    HeadingEntriesFacts();
    LeafTrialBalanceOfBalancedEntries(HeadingChart, HeadingEntries);
  }
}
