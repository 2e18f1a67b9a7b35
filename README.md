# Plutus balance engine in Dafny

This project models the balance engine of the plutus double-entry bookkeeping
library: the `Plutus::Account` model class in `app/models/plutus/account.rb`.
An account belongs to one of five types (Asset, Liability, Equity, Revenue,
Expense), each with a normal debit or credit side. It may be a contra account,
which swaps its normal side. It may also be a rollup account (`rollup_code ==
code`), whose balance is that of the other accounts in its rollup group. The
engine computes:

- an account's debit and credit totals over an optional date period;
- its own `balance`;
- a rollup account's `child_accounts` and `rollup_balance`;
- the class-level `balance` of every account of one type;
- the `trial_balance` of the whole chart.

The model is split into modules:

- `LedgerTypes` (`ledger_types.dfy`): accounts, amounts, entries, date windows, the
  account types with their normal sides, and the `Result` type that carries the
  engine's failures. The failures are exceptions in Ruby.
- `AmountLedger` (`amounts.dfy`): the per-account side totals that the amount
  associations compute. It also holds the entries a ledger is built from, and the
  fact that balanced entries leave equal debit and credit totals.
- `Accounts` (`accounts.dfy`): the validations, `rollup_account?`,
  `credits_balance`, `debits_balance`, the instance `balance` and the child-account
  query.
- `Aggregation` (`aggregation.dfy`): the `.each` loops of `rollup_balance` and of
  the class-level `balance`. Each loop is a method proved equal to one
  specification function, `SignedSum`. The module also holds `trial_balance` and
  the lemmas that say when each aggregate fails and what it adds up to.
- `TrialBalanceTheorem` (`trial_balance.dfy`): the accounting equation. The two
  contra inversions cancel: the instance balance flips a contra account and the
  loops subtract it again. So every account adds its debits less its credits.
  Over a chart of concrete, non-rollup accounts the trial balance is therefore
  the ledger's total debits less its total credits. It is zero for any ledger
  built from balanced entries.
- `AsWritten` (`as_written.dfy`): the places where the code as written departs
  from its documentation or its evident purpose (see "## Findings"), each with a
  lemma proving an input on which it departs.
  - The guard of `balance` (line 77) and the child-account query (line 129) are
    each modelled on their own, with the other departures corrected.
  - `TrialBalanceAsWritten` models the guard of `trial_balance` (line 214). On a
    subclass receiver it computes `TrialBalance`, which keeps the as-written
    class-level sums over rollup rows.
  - The fourth departure, the class-level sums over rollup rows
    (lines 195-199), is not a member of this module. Its as-written model is
    `Aggregation.TrialBalance` itself, and the corrected one is
    `TrialBalanceTheorem.LeafTrialBalance`.

The chart of accounts is a `seq<Account>` in table order. The amounts table is a
`seq<Amount>`. Each amount refers to its account by id and carries the date of
its entry. The optional `:from_date`/`:to_date` options are a `Window`: `AllTime`,
or an inclusive `Period(from, to)` over integer dates. A subclass query (`all` on
`Plutus::Asset`, or `self.class.name.constantize` in `child_accounts`) is a
filter of the chart by account type. For the child-account query, a base-class
receiver sees every row (`InScope`). The `all` query of the class-level `balance`
(`OfType`) is modelled on the five subclasses only. The base class is refused
before that query runs.

Facts about the code that shape the model:

- `trial_balance` takes no date options (account.rb:213). It is modelled over all
  time.
- The class-level `balance` calls the instance `balance` on every account of its
  type, rollup accounts included (account.rb:195-199), and that call raises on a
  rollup account (account.rb:78). So a chart holding a rollup account of a
  concrete type has no trial balance (`TrialBalanceFails`). `TrialBalance` keeps
  this behaviour. `TrialBalanceTheorem.LeafTrialBalance` is the corrected version,
  which skips the rollup rows (see "## Findings").
- The child-account query compares with the receiver's `rollup_code`
  (account.rb:129). For every receiver the query accepts, that equals its `code`.
- `rollup_balance` never consults the rollup account's own `contra` flag
  (account.rb:113-119). Only the children's flags matter.

## Model

| member | source | states |
|---|---|---|
| Accounts.ValidateReports | app/models/plutus/account.rb:49-53 | each of the five validations (type present, name present, `rollup_code >= 100`, `code >= 100`, `code >= rollup_code`) is reported exactly when its condition is violated |
| Accounts.ValidateInOrder | app/models/plutus/account.rb:49-53 | failures are reported in the order the validations are declared, so none is reported twice |
| Accounts.Validate | app/models/plutus/account.rb:49-53 | runs the five validations in declaration order and collects what the failing ones report; its meaning is stated by `ValidateReports` and `ValidateInOrder` |
| Accounts.ValidAccountBounds | app/models/plutus/account.rb:49-53 | a valid account has a concrete type, a non-blank name and `code >= rollup_code >= 100`; a valid rollup account has `code == rollup_code >= 100` |
| Accounts.IsRollup | app/models/plutus/account.rb:134-136 | `rollup_account?`: `rollup_code == code`; what follows from it is stated by `ValidAccountBounds`, `Balance`, `ChildAccounts` and `ExactlyOneBalanceSucceeds` |
| AmountLedger.SideTotal | app/models/plutus/account.rb:43-44 | an account's amounts on one side inside the date window, added up; an empty period gives zero |
| AmountLedger.SideTotalNonNegative | app/models/plutus/account.rb:43-44 | with no negative amount, a side total is never negative |
| AmountLedger.SideTotalWithoutAmounts | app/models/plutus/account.rb:43-44 | an account that owns no amount has a zero total on either side |
| Accounts.CreditsBalance | app/models/plutus/account.rb:152-154 | `credits_balance` is the account's credit amounts in the window; zero over an empty period |
| Accounts.DebitsBalance | app/models/plutus/account.rb:170-172 | `debits_balance` is the account's debit amounts in the window; zero over an empty period |
| Accounts.Balance | app/models/plutus/account.rb:76-85 | fails exactly on the base class and on a rollup account, with the matching error; otherwise credits − debits when the type is credit-normal XOR contra, debits − credits otherwise |
| Accounts.BalanceContraFlip | app/models/plutus/account.rb:80-84 | flipping `contra` with the same amounts negates the balance and leaves failures unchanged |
| Accounts.SelectChildren | app/models/plutus/account.rb:129 | the query returns exactly the chart rows in the receiver's type scope with its `rollup_code` and another `code`; the receiver is never its own child; a rollup receiver's children are never rollup accounts; a concrete receiver's children all have its type |
| Accounts.NoChildren | app/models/plutus/account.rb:129 | a receiver with no matching rows gets an empty result |
| Accounts.ChildAccounts | app/models/plutus/account.rb:126-130 | fails with the not-a-rollup error exactly on a normal account; otherwise yields exactly the matching rows |
| Aggregation.OfTypeMembers | app/models/plutus/account.rb:195 | `all` on a subclass returns exactly the chart rows of that type, each as often as the chart holds it |
| Aggregation.OfType | app/models/plutus/account.rb:195 | `all` on a subclass never returns more rows than the chart holds; which rows it returns is stated by `OfTypeMembers` |
| Aggregation.SignedSum | app/models/plutus/account.rb:194-202 | what the `.each` loops compute, the first failing `balance` ending them; its meaning is stated by `SignedSumIsNatural`, `SignedSumFails` and `SignedSumStopsAtFailure`, and `AddUpBalances` is proved to compute it |
| Aggregation.SignedSumIsNatural | app/models/plutus/account.rb:194-202 | when the loop's sum succeeds, the two contra inversions cancel: it is the sum of every account's normal-side balance, whatever its contra flag |
| Aggregation.SignedSumFails | app/models/plutus/account.rb:194-202 | the loop's sum fails exactly when some account is of the base class or a rollup account; over concrete accounts the failure is always a rollup account's |
| Aggregation.SignedSumStopsAtFailure | app/models/plutus/account.rb:113-119 | once the balance of one account raises, the whole loop ends with that error |
| Aggregation.AddUpBalances | app/models/plutus/account.rb:194-202 | the accumulator loop (subtract a contra account's balance, add the others', the same window for each) computes `SignedSum` |
| Aggregation.RollupBalanceOf | app/models/plutus/account.rb:109-121 | `rollup_balance` fails on a normal account |
| Aggregation.RollupBalanceSucceeds | app/models/plutus/account.rb:109-121 | on a rollup account of a concrete type, `rollup_balance` never fails: it is the children's normal-side balances over the same window, contra children included, and zero with no children |
| Aggregation.ExactlyOneBalanceSucceeds | app/models/plutus/account.rb:76-121 | for an account of a concrete type, `balance` succeeds exactly on a normal account and `rollup_balance` exactly on a rollup account |
| Aggregation.RollupBalance | app/models/plutus/account.rb:109-121 | the method computes `RollupBalanceOf` |
| Aggregation.ClassBalanceOf | app/models/plutus/account.rb:191-203 | the class-level `balance` fails on the base class |
| Aggregation.ClassBalanceFails | app/models/plutus/account.rb:191-203 | the class-level `balance` fails exactly on the base class or when an account of the type is a rollup account, and on a concrete type always with the rollup error |
| Aggregation.ClassBalance | app/models/plutus/account.rb:191-203 | the method computes `ClassBalanceOf` |
| Aggregation.CombineClassBalances | app/models/plutus/account.rb:216 | Asset − (Liability + Equity + Revenue − Expense) succeeds exactly when all five class balances do, and otherwise returns one of their failures |
| Aggregation.TrialBalance | app/models/plutus/account.rb:213-217 | `trial_balance` over the five class balances taken in order; when it fails is stated by `TrialBalanceFails`, what it adds up to by `TrialBalanceTheorem.TrialBalanceByType` and `TrialBalanceIsNetDebits` |
| Aggregation.TrialBalanceFails | app/models/plutus/account.rb:213-217 | the trial balance fails exactly when the chart holds a rollup account of a concrete type, and then with the rollup error |
| AmountLedger.BalancedEntriesNetZero | app/models/plutus/account.rb:205-206 | a ledger made of balanced entries holds as much in debits as in credits, over any window |
| TrialBalanceTheorem.NaturalSumOfOneType | app/models/plutus/account.rb:80-84 | over accounts of one type, the normal-side balances are the net debits for a debit-normal type and their negation for a credit-normal one |
| TrialBalanceTheorem.NetSumByType | app/models/plutus/account.rb:216 | the net debits of a chart of concrete accounts split into the five types |
| TrialBalanceTheorem.NetSumBySide | app/models/plutus/account.rb:80-84 | the chart's net debits are its debit totals less its credit totals |
| TrialBalanceTheorem.ChartSideSumIsLedgerTotal | app/models/plutus/account.rb:43-44 | over a chart with distinct ids that owns every amount, the accounts' side totals add up to the ledger's side total |
| TrialBalanceTheorem.ConcreteLeavesOfRows | app/models/plutus/account.rb:134-136 | the chart has no base-class and no rollup row exactly when each row is concrete and not a rollup account |
| TrialBalanceTheorem.ClassBalanceIsNet | app/models/plutus/account.rb:191-203 | over a chart without rollup accounts, a concrete type's class-level `balance` is its accounts' net debits, negated for a credit-normal type, contra accounts included |
| TrialBalanceTheorem.DebitClassesAreNet | app/models/plutus/account.rb:191-203 | Asset and Expense class balances are their net debits |
| TrialBalanceTheorem.CreditClassesAreNet | app/models/plutus/account.rb:191-203 | Liability, Equity and Revenue class balances are their net credits |
| TrialBalanceTheorem.TrialBalanceByType | app/models/plutus/account.rb:213-217 | over concrete non-rollup accounts the trial balance succeeds and is the sum of each type's net debits |
| TrialBalanceTheorem.TrialBalanceIsNetSum | app/models/plutus/account.rb:213-217 | over concrete non-rollup accounts the trial balance is the chart's net debits |
| TrialBalanceTheorem.NetSumIsLedgerNet | app/models/plutus/account.rb:205-206 | over a chart with distinct ids that owns every amount, the chart's net debits are the ledger's total debits less its total credits |
| TrialBalanceTheorem.TrialBalanceIsNetDebits | app/models/plutus/account.rb:205-217 | the accounting equation: the trial balance is total debits less total credits |
| TrialBalanceTheorem.TrialBalanceOfBalancedEntries | app/models/plutus/account.rb:205-217 | the trial balance is zero for any ledger of balanced entries over a chart of concrete, non-rollup accounts |
| TrialBalanceTheorem.Leaves | app/models/plutus/account.rb:195-199 | the rows that hold amounts of their own, every row but the rollup accounts; stated by `LeavesAreConcreteLeaves` and `LeavesIds` |
| TrialBalanceTheorem.LeavesAreConcreteLeaves | app/models/plutus/account.rb:195-199 | dropping the rollup rows of a chart of concrete accounts leaves only concrete, non-rollup rows |
| TrialBalanceTheorem.LeavesIds | app/models/plutus/account.rb:195-199 | the rows kept have ids of the chart, and distinct ids stay distinct |
| TrialBalanceTheorem.LeafTrialBalance | app/models/plutus/account.rb:195-199 | the trial balance with every class-level balance taken over the type's non-rollup rows; stated by `LeafTrialBalanceOfBalancedEntries` |
| TrialBalanceTheorem.LeafTrialBalanceOfBalancedEntries | app/models/plutus/account.rb:205-217 | with rollup rows skipped, the trial balance is zero for any ledger of balanced entries over a chart of concrete accounts with distinct ids whose amounts all belong to non-rollup rows, rollup headings in the chart included |
| AsWritten.BalanceAsWritten | app/models/plutus/account.rb:76-85 | instance `balance` with the guard of line 77 as written; stated by `BalanceGuardInverted` and `BalanceGuardCounterexample` |
| AsWritten.BalanceGuardInverted | app/models/plutus/account.rb:77 | as written, `balance` succeeds only on a non-rollup base-class row, while `Balance` succeeds exactly on non-rollup rows of a concrete type; the two disagree on every non-rollup account |
| AsWritten.BalanceGuardCounterexample | app/models/plutus/account.rb:77 | a cash account without amounts: the as-written guard raises, the documented `balance` is 0 |
| AsWritten.ChildAccountsAsWritten | app/models/plutus/account.rb:126-130 | `child_accounts` with the query of line 129 as written, which the database refuses when the relation is loaded; stated by `RollupQueryMalformed` |
| AsWritten.RollupBalanceAsWritten | app/models/plutus/account.rb:109-121 | `rollup_balance` over the as-written `child_accounts`; stated by `RollupQueryMalformed` and `RollupQueryCounterexample` |
| AsWritten.RollupQueryMalformed | app/models/plutus/account.rb:129 | as written, `rollup_balance` fails on every account, with the malformed-query error on every rollup account; the corrected one succeeds on every concrete rollup account |
| AsWritten.RollupQueryCounterexample | app/models/plutus/account.rb:129 | a cash heading with one child holding a debit of 5: the as-written query fails, the corrected rollup balance is 5 |
| AsWritten.TrialBalanceAsWritten | app/models/plutus/account.rb:213-217 | `trial_balance` with the guard of line 214 as written, the instance guard corrected; stated by `TrialBalanceGuardInverted` and `TrialBalanceGuardCounterexample` |
| AsWritten.TrialBalanceGuardInverted | app/models/plutus/account.rb:214 | as written, the documented call on the base class always fails; the corrected trial balance fails only on a chart with a concrete rollup account, never with that error |
| AsWritten.TrialBalanceGuardCounterexample | app/models/plutus/account.rb:214 | on the empty chart the documented call raises, while the trial balance is 0 |
| AsWritten.RollupHeadingCounterexample | app/models/plutus/account.rb:195-199 | as written, the trial balance of a balanced ledger over a chart with a cash heading fails with the rollup error |
| AsWritten.RollupHeadingSkipped | app/models/plutus/account.rb:195-199 | with the rollup rows skipped, the same ledger has a trial balance of zero |

## Left out

- Tenancy (`Plutus::Tenancy`/`NoTenancy`) and the ActiveRecord associations are persistence and scoping. The model passes the chart and the amounts explicitly instead.
- The internals of `AmountsExtension`, which `credits_balance`/`debits_balance` delegate to, are not part of this model. They are modelled as the sum of the account's same-side amounts whose entry date lies in the inclusive window.
- Parsing "yyyy-mm-dd" date strings and Ruby `Date` objects is left out: dates are integers.
- BigDecimal values are unbounded integers, and the arithmetic is exact.
- A `nil` `code` or `rollup_code` (the `presence` part of the numeric validations) cannot be represented: both are integers.
- Blank names are recognised by ASCII white space only; Unicode white space is not modelled.
- Ruby exceptions (`NoMethodError`, `StandardError`) are `Err` values of a `Result`. Their messages are not modelled.
- Creating entries and amounts, and the atomic transaction around them, are persistence. A ledger is built from entries by `Post`, and "every entry balanced" is a hypothesis of the trial-balance lemma.
- Aggregation.RollupBalanceOf: its own contract states only the failure on a normal account. What it adds up to and when it succeeds are stated by `RollupBalanceSucceeds`.
- Aggregation.ClassBalanceOf: its own contract states only the failure on the base class. When it fails otherwise and what it adds up to are stated by `ClassBalanceFails` and `TrialBalanceTheorem.ClassBalanceIsNet`.
- TrialBalanceTheorem.ClassBalanceIsNet, DebitClassesAreNet, CreditClassesAreNet and TrialBalanceOfClassBalances are stated as implications rather than with preconditions. This keeps their use inside the trial-balance proofs cheap. The statements are the same.
- The trial-balance lemmas assume a chart without rollup accounts. With a rollup account of a concrete type the trial balance fails, which `TrialBalanceFails` states.

## Findings

| source | as written | input that shows it | evidently intended | confidence | as-written member | corrected member |
|---|---|---|---|---|---|---|
| app/models/plutus/account.rb:77 | `balance` raises unless the receiver's class is the base `Account`, so every account of a subclass is refused | an Asset account with code 101 and rollup code 100 and no amounts: as written it raises, intended balance 0 | raise only when the class is the base `Account`, as the doc comment at lines 55-56 says | not executed | AsWritten.BalanceGuardCounterexample | Aggregation.ExactlyOneBalanceSucceeds |
| app/models/plutus/account.rb:129 | the child-account condition joins `rollup_code == ?` and `code != ?` with a comma, which is not a valid SQL condition | an Asset heading (code 100, rollup code 100) with one child (code 101) holding a debit of 5: as written the query fails, intended rollup balance 5 | `rollup_code = ? AND code != ?` | not executed | AsWritten.RollupQueryCounterexample | Aggregation.RollupBalanceSucceeds |
| app/models/plutus/account.rb:214 | `trial_balance` raises when called on the base `Account`, which is how its example at line 209 calls it | the empty chart: as written the call on `Account` raises, intended trial balance 0 | no guard on the base class; the trial balance is computed over all five types | not executed | AsWritten.TrialBalanceGuardCounterexample | TrialBalanceTheorem.TrialBalanceOfBalancedEntries |
| app/models/plutus/account.rb:195-199 | the class-level `balance` asks every account of its type for its `balance`, rollup accounts included, and that call raises on a rollup account (line 78); so no trial balance exists for a chart with a rollup heading, such as the chart seed.rb builds from line 13 on | a cash heading (code 100, rollup code 100), a cash account (101) and a capital account (301), with one balanced entry of 500: as written the trial balance fails, intended 0 | skip the rollup accounts, which hold no amounts of their own, in the class-level sums | not executed | AsWritten.RollupHeadingCounterexample | TrialBalanceTheorem.LeafTrialBalanceOfBalancedEntries |
