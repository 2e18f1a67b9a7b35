/** One account of the chart: its validations, the rollup test, its debit and
    credit balances, its own balance under the normal-side and contra rules, and
    the resolver that finds the children of a rollup account. */
module Accounts {
  import opened LedgerTypes
  import opened AmountLedger

  /** The smallest admissible `code` and `rollup_code`. */
  const MinCode: int := 100

  /** The validation failures, one per failing check. */
  datatype ValidationError =
    | TypeBlank              // `type` missing: a row of the base class itself
    | NameBlank              // `name` missing or only white space
    | RollupCodeTooSmall     // `rollup_code` below 100
    | CodeTooSmall           // `code` below 100
    | CodeBelowRollupCode    // `code` below `rollup_code`

  /** The characters Rails' `blank?` treats as white space (ASCII part). */
  predicate IsSpace(c: char) {
    c == ' ' || c == '\t' || c == '\n' || c == '\r' || c == '\U{C}' || c == '\U{B}'
  }

  /** `presence: true` fails on an empty or all-white-space string. */
  predicate Blank(s: string) {
    forall i | 0 <= i < |s| :: IsSpace(s[i])
  }

  /** One declared validation: whether it fails on the account, and what it reports. */
  datatype Check = Check(fails: bool, error: ValidationError)

  /** The validations in the order the model class declares them. */
  function Checks(a: Account): seq<Check> {
    [ Check(a.kind == Abstract, TypeBlank),
      Check(Blank(a.name), NameBlank),
      Check(a.rollupCode < MinCode, RollupCodeTooSmall),
      Check(a.code < MinCode, CodeTooSmall),
      Check(a.code < a.rollupCode, CodeBelowRollupCode) ]
  }

  /** Run the checks in order, collecting what the failing ones report. */
  function Failing(cs: seq<Check>): seq<ValidationError> {
    if cs == [] then []
    else
      var c := cs[|cs| - 1];
      Failing(cs[..|cs| - 1]) + (if c.fails then [c.error] else [])
  }

  /** Every failing validation of an account, in declaration order. */
  function Validate(a: Account): seq<ValidationError> {
    Failing(Checks(a))
  }

  /** An error is reported exactly when a check that reports it fails. */
  lemma {:induction false} FailingReports(cs: seq<Check>, e: ValidationError)
    ensures e in Failing(cs) <==> exists c | c in cs :: c.fails && c.error == e
  {
    if cs != [] {
      var init := cs[..|cs| - 1];
      var c := cs[|cs| - 1];
      assert cs == init + [c];
      FailingReports(init, e);
    }
  }

  /** Checks listed in increasing rank report their failures in increasing rank. */
  lemma {:induction false} FailingInOrder(cs: seq<Check>)
    requires forall i, j | 0 <= i < j < |cs| :: Rank(cs[i].error) < Rank(cs[j].error)
    ensures forall i, j | 0 <= i < j < |Failing(cs)| :: Rank(Failing(cs)[i]) < Rank(Failing(cs)[j])
  {
    if cs != [] {
      var init := cs[..|cs| - 1];
      var c := cs[|cs| - 1];
      FailingInOrder(init);
      var before := Failing(init);
      forall k | 0 <= k < |before| ensures Rank(before[k]) < Rank(c.error) {
        FailingReports(init, before[k]);
        var d :| d in init && d.fails && d.error == before[k];
        var i :| 0 <= i < |init| && init[i] == d;
        assert cs[i] == d;
      }
    }
  }

  /** Each validation is reported exactly when its check fails. */
  lemma ValidateReports(a: Account)
    ensures TypeBlank in Validate(a) <==> a.kind == Abstract
    ensures NameBlank in Validate(a) <==> Blank(a.name)
    ensures RollupCodeTooSmall in Validate(a) <==> a.rollupCode < MinCode
    ensures CodeTooSmall in Validate(a) <==> a.code < MinCode
    ensures CodeBelowRollupCode in Validate(a) <==> a.code < a.rollupCode
  {
    FailingReports(Checks(a), TypeBlank);
    FailingReports(Checks(a), NameBlank);
    FailingReports(Checks(a), RollupCodeTooSmall);
    FailingReports(Checks(a), CodeTooSmall);
    FailingReports(Checks(a), CodeBelowRollupCode);
  }

  /** The position of each validation in declaration order. */
  function Rank(e: ValidationError): nat {
    match e
    case TypeBlank => 0
    case NameBlank => 1
    case RollupCodeTooSmall => 2
    case CodeTooSmall => 3
    case CodeBelowRollupCode => 4
  }

  /** The failures are reported in declaration order, so none is reported twice. */
  lemma ValidateInOrder(a: Account)
    ensures forall i, j | 0 <= i < j < |Validate(a)| :: Rank(Validate(a)[i]) < Rank(Validate(a)[j])
    ensures forall i, j | 0 <= i < j < |Validate(a)| :: Validate(a)[i] != Validate(a)[j]
  {
    FailingInOrder(Checks(a));
  }

  predicate Valid(a: Account) {
    Validate(a) == []
  }

  /** A valid account has a concrete type, a non-blank name and
      `code >= rollup_code >= 100`; a valid rollup account has `code == rollup_code >= 100`. */
  lemma ValidAccountBounds(a: Account)
    requires Valid(a)
    ensures a.kind != Abstract && !Blank(a.name)
    ensures a.code >= a.rollupCode >= MinCode
    ensures IsRollup(a) ==> a.code == a.rollupCode >= MinCode
  {
    ValidateReports(a);
    assert TypeBlank !in Validate(a);
    assert NameBlank !in Validate(a);
    assert RollupCodeTooSmall !in Validate(a);
    assert CodeBelowRollupCode !in Validate(a);
  }

  /** `rollup_account?` */
  predicate IsRollup(a: Account) {
    a.rollupCode == a.code
  }

  /** `credits_balance`: the account's credit amounts in the window. */
  function CreditsBalance(a: Account, ledger: seq<Amount>, w: Window): (r: int)
    ensures w.Period? && w.from > w.to ==> r == 0
  {
    SideTotal(ledger, a.id, Credit, w)
  }

  /** `debits_balance`: the account's debit amounts in the window. */
  function DebitsBalance(a: Account, ledger: seq<Amount>, w: Window): (r: int)
    ensures w.Period? && w.from > w.to ==> r == 0
  {
    SideTotal(ledger, a.id, Debit, w)
  }

  /** The balance an account of type `t` shows on its normal side, contra aside:
      credits less debits for a credit-normal type, debits less credits otherwise. */
  function NaturalBalance(t: AccountType, debits: int, credits: int): int {
    if NormalCredit(t) then credits - debits else debits - credits
  }

  /** Instance `balance`: fails on the base class and on a rollup account; otherwise
      the normal-side balance of the account's type, negated for a contra account.
      The guard on the base class follows the documented intent (see the as-written
      model of the guard in module AsWritten). */
  function Balance(a: Account, ledger: seq<Amount>, w: Window): (r: Result<int>)
    ensures r.Err? <==> a.kind == Abstract || IsRollup(a)
    ensures a.kind == Abstract ==> r == Err(UndefinedOnBaseType)
    ensures a.kind != Abstract && IsRollup(a) ==> r == Err(BalanceOnRollup)
    ensures r.Ok? ==>
      var natural := NaturalBalance(a.kind, DebitsBalance(a, ledger, w), CreditsBalance(a, ledger, w));
      r.value == if a.contra then -natural else natural
  {
    if a.kind == Abstract then Err(UndefinedOnBaseType)
    else if IsRollup(a) then Err(BalanceOnRollup)
    else if NormalCredit(a.kind) != a.contra then
      Ok(CreditsBalance(a, ledger, w) - DebitsBalance(a, ledger, w))
    else
      Ok(DebitsBalance(a, ledger, w) - CreditsBalance(a, ledger, w))
  }

  /** Flipping an account's contra flag, amounts unchanged, negates its balance and
      leaves its failures as they are. */
  lemma BalanceContraFlip(a: Account, ledger: seq<Amount>, w: Window)
    ensures Balance(a.(contra := !a.contra), ledger, w).Ok? <==> Balance(a, ledger, w).Ok?
    ensures Balance(a, ledger, w).Ok? ==>
      Balance(a.(contra := !a.contra), ledger, w).value == -Balance(a, ledger, w).value
    ensures Balance(a, ledger, w).Err? ==> Balance(a.(contra := !a.contra), ledger, w) == Balance(a, ledger, w)
  {
  }

  /** The relation the model of `self.class.name.constantize` scopes by: a query on
      a subclass sees its own rows, a query on the base class sees every row. */
  predicate InScope(receiver: AccountType, t: AccountType) {
    receiver == Abstract || t == receiver
  }

  /** The rows the child-account query selects: in the receiver's scope, in the
      receiver's rollup group, and not the receiver's own code. */
  predicate IsChildOf(r: Account, c: Account) {
    InScope(r.kind, c.kind) && c.rollupCode == r.rollupCode && c.code != r.code
  }

  /** The child-account query over the chart, in chart order: each matching row as
      often as the chart holds it, and no other row. For a rollup receiver the
      children are never rollup accounts, the receiver is never among them, and for
      a concrete receiver they all have its type. */
  function SelectChildren(r: Account, chart: seq<Account>): (cs: seq<Account>)
    ensures forall c :: multiset(cs)[c] == if IsChildOf(r, c) then multiset(chart)[c] else 0
    ensures forall c :: c in cs <==> c in chart && IsChildOf(r, c)
    ensures |cs| <= |chart|
    ensures r !in cs
    ensures IsRollup(r) ==> forall c | c in cs :: !IsRollup(c)
    ensures r.kind != Abstract ==> forall c | c in cs :: c.kind == r.kind
  {
    if chart == [] then []
    else
      var c := chart[|chart| - 1];
      assert chart == chart[..|chart| - 1] + [c];
      SelectChildren(r, chart[..|chart| - 1]) + (if IsChildOf(r, c) then [c] else [])
  }

  /** A receiver with no child rows in the chart gets an empty query result. */
  lemma {:induction false} NoChildren(r: Account, chart: seq<Account>)
    requires forall c | c in chart :: !IsChildOf(r, c)
    ensures SelectChildren(r, chart) == []
  {
    if chart != [] {
      var init := chart[..|chart| - 1];
      assert forall c | c in init :: c in chart;
      assert chart[|chart| - 1] in chart;
      NoChildren(r, init);
    }
  }

  /** `child_accounts`: fails on a normal account, otherwise the rollup group's
      other members. */
  function ChildAccounts(r: Account, chart: seq<Account>): (res: Result<seq<Account>>)
    ensures res.Err? <==> !IsRollup(r)
    ensures res.Err? ==> res.error == NotRollupAccount
    ensures res.Ok? ==> forall c :: multiset(res.value)[c] == if IsChildOf(r, c) then multiset(chart)[c] else 0
    ensures res.Ok? ==> forall c :: c in res.value <==> c in chart && IsChildOf(r, c)
  {
    if !IsRollup(r) then Err(NotRollupAccount) else Ok(SelectChildren(r, chart))
  }
}
