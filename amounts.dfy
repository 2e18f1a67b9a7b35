/** The amount ledger: the sums the `AmountsExtension` association helper
    computes over an account's debit or credit amounts, and the entries whose
    amounts make up the ledger. Every sum runs over the ledger front to back,
    so each is defined on the prefix without its last amount. */
module AmountLedger {
  import opened LedgerTypes

  /** Amount `x` is summed into the `side` balance of account `id` over `w`. */
  predicate Counts(x: Amount, id: nat, side: Side, w: Window) {
    x.accountId == id && x.side == side && w.Contains(x.date)
  }

  /** The `side` amounts of account `id` whose entry date lies in `w`, added up.
      An empty period gives zero. */
  function SideTotal(ledger: seq<Amount>, id: nat, side: Side, w: Window): (r: int)
    ensures w.Period? && w.from > w.to ==> r == 0
  {
    if ledger == [] then 0
    else
      var x := ledger[|ledger| - 1];
      SideTotal(ledger[..|ledger| - 1], id, side, w) + (if Counts(x, id, side, w) then x.value else 0)
  }

  /** The `side` amounts of the whole ledger whose entry date lies in `w`. */
  function LedgerTotal(ledger: seq<Amount>, side: Side, w: Window): (r: int)
    ensures w.Period? && w.from > w.to ==> r == 0
  {
    if ledger == [] then 0
    else
      var x := ledger[|ledger| - 1];
      LedgerTotal(ledger[..|ledger| - 1], side, w) + (if x.side == side && w.Contains(x.date) then x.value else 0)
  }

  /** With no negative amount in the ledger, an account's side total is never negative. */
  lemma {:induction false} SideTotalNonNegative(ledger: seq<Amount>, id: nat, side: Side, w: Window)
    requires forall x | x in ledger :: x.value >= 0
    ensures SideTotal(ledger, id, side, w) >= 0
  {
    if ledger != [] {
      var init := ledger[..|ledger| - 1];
      assert forall x | x in init :: x in ledger;
      assert ledger[|ledger| - 1] in ledger;
      SideTotalNonNegative(init, id, side, w);
    }
  }

  /** An account that owns no amount of the ledger has a zero side total. */
  lemma {:induction false} SideTotalWithoutAmounts(ledger: seq<Amount>, id: nat, side: Side, w: Window)
    requires forall x | x in ledger :: x.accountId != id
    ensures SideTotal(ledger, id, side, w) == 0
  {
    if ledger != [] {
      var init := ledger[..|ledger| - 1];
      assert forall x | x in init :: x in ledger;
      assert ledger[|ledger| - 1] in ledger;
      SideTotalWithoutAmounts(init, id, side, w);
    }
  }

  lemma {:induction false} LedgerTotalAppend(a: seq<Amount>, b: seq<Amount>, side: Side, w: Window)
    ensures LedgerTotal(a + b, side, w) == LedgerTotal(a, side, w) + LedgerTotal(b, side, w)
    decreases |b|
  {
    if b != [] {
      var b' := b[..|b| - 1];
      assert (a + b)[..|a + b| - 1] == a + b';
      LedgerTotalAppend(a, b', side, w);
    } else {
      assert a + b == a;
    }
  }

  /** The `side` lines of a list of postings, added up. */
  function PostingTotal(postings: seq<Posting>, side: Side): int {
    if postings == [] then 0
    else
      var p := postings[|postings| - 1];
      PostingTotal(postings[..|postings| - 1], side) + (if p.side == side then p.value else 0)
  }

  /** An entry is balanced when its debit lines add up to its credit lines. */
  predicate Balanced(e: Entry) {
    PostingTotal(e.postings, Debit) == PostingTotal(e.postings, Credit)
  }

  /** The amounts an entry persists: one per line, each dated with the entry. */
  function Stamp(postings: seq<Posting>, date: int): (r: seq<Amount>)
    ensures |r| == |postings|
    ensures forall i | 0 <= i < |r| ::
      r[i] == Amount(postings[i].accountId, postings[i].side, postings[i].value, date)
  {
    if postings == [] then []
    else
      var p := postings[|postings| - 1];
      Stamp(postings[..|postings| - 1], date) + [Amount(p.accountId, p.side, p.value, date)]
  }

  /** The ledger that a sequence of entries leaves behind. */
  function Post(entries: seq<Entry>): seq<Amount> {
    if entries == [] then []
    else
      var e := entries[|entries| - 1];
      Post(entries[..|entries| - 1]) + Stamp(e.postings, e.date)
  }

  /** An entry adds its own lines to a ledger total when its date lies in the window,
      and nothing otherwise. */
  lemma {:induction false} StampTotal(postings: seq<Posting>, date: int, side: Side, w: Window)
    ensures LedgerTotal(Stamp(postings, date), side, w)
         == if w.Contains(date) then PostingTotal(postings, side) else 0
  {
    if postings != [] {
      var p := postings[|postings| - 1];
      var init := Stamp(postings[..|postings| - 1], date);
      StampTotal(postings[..|postings| - 1], date, side, w);
      LedgerTotalAppend(init, [Amount(p.accountId, p.side, p.value, date)], side, w);
    }
  }

  /** Whatever the window, a ledger built from balanced entries holds as much in
      debits as in credits: an entry lies wholly inside or wholly outside the window. */
  lemma {:induction false} BalancedEntriesNetZero(entries: seq<Entry>, w: Window)
    requires forall e | e in entries :: Balanced(e)
    ensures LedgerTotal(Post(entries), Debit, w) == LedgerTotal(Post(entries), Credit, w)
  {
    if entries != [] {
      var init := entries[..|entries| - 1];
      var e := entries[|entries| - 1];
      var stamped := Stamp(e.postings, e.date);
      assert Post(entries) == Post(init) + stamped;
      assert e in entries;
      assert forall f | f in init :: f in entries;
      BalancedEntriesNetZero(init, w);
      LedgerTotalAppend(Post(init), stamped, Debit, w);
      LedgerTotalAppend(Post(init), stamped, Credit, w);
      StampTotal(e.postings, e.date, Debit, w);
      StampTotal(e.postings, e.date, Credit, w);
    }
  }
}
