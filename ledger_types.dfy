/** Values shared by the whole balance engine: the five account types (and the
    abstract base), the two sides of an amount, date windows, amounts, entries,
    accounts and the failures the engine reports. */
module LedgerTypes {

  /** The failures of the engine. Every one of them is raised as an exception in
      the Ruby code; here they are returned. */
  datatype Error =
    | UndefinedOnBaseType     // NoMethodError "undefined method ..." on the base Account class
    | BalanceOnRollup         // NoMethodError: 'balance' called on a rollup account
    | RollupBalanceOnNormal   // NoMethodError: 'rollup_balance' called on a normal account
    | NotRollupAccount        // StandardError: 'child_accounts' called on a normal account
    | MalformedQuery          // the database rejects the child-account query as written

  /** A computation that either yields a value or fails; usable with `:-`. */
  datatype Result<+T> = Ok(value: T) | Err(error: Error) {
    predicate IsFailure() {
      Err?
    }

    function PropagateFailure<U>(): Result<U>
      requires Err?
    {
      Err(error)
    }

    function Extract(): T
      requires Ok?
    {
      value
    }
  }

  /** The single-table-inheritance class of an account. `Abstract` is the base
      class itself, which has no normal balance side. */
  datatype AccountType = Abstract | Asset | Liability | Equity | Revenue | Expense

  /** The table of normal balances: Liability, Equity and Revenue are credit-normal,
      Asset and Expense debit-normal. On the base class the class attribute is nil,
      which `^` treats as false. */
  predicate NormalCredit(t: AccountType) {
    t == Liability || t == Equity || t == Revenue
  }

  datatype Side = Debit | Credit

  /** The optional `:from_date`/`:to_date` period; both bounds inclusive. */
  datatype Window = AllTime | Period(from: int, to: int) {
    predicate Contains(date: int) {
      AllTime? || (from <= date && date <= to)
    }
  }

  /** One persisted debit or credit amount, carrying the date of its entry. */
  datatype Amount = Amount(accountId: nat, side: Side, value: int, date: int)

  /** One line of an entry, before it is persisted. */
  datatype Posting = Posting(accountId: nat, side: Side, value: int)

  /** A transaction: a date and its debit and credit lines. */
  datatype Entry = Entry(date: int, postings: seq<Posting>)

  /** A row of the accounts table. `name` is the string column. */
  datatype Account = Account(id: nat, kind: AccountType, code: int, rollupCode: int,
                             contra: bool, name: string)
}
