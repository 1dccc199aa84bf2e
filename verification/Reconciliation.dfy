/** The books balance at every grain, and a reversal undoes exactly what it reverses (ledger/reconciliation.py). */
module Reconciliation {
  import opened Results
  import opened Sums
  import opened Types
  import opened Chart
  import opened Queries
  import opened Posting
  import opened Operations
  import opened Invariants
  import opened Capital
  import opened Commitments

  /** `unbalanced_transfers`, without its limit: the transfers whose entries do not sum to zero. */
  function UnbalancedTransfers(ts: seq<Transfer>): seq<(TransferId, int)> {
    if ts == [] then []
    else
      var n := |ts| - 1;
      UnbalancedTransfers(ts[..n]) + (if Imbalance(ts[n].entries) != 0 then [(n, Imbalance(ts[n].entries))] else [])
  }

  lemma {:induction false} NothingUnbalanced(ts: seq<Transfer>)
    requires forall i :: 0 <= i < |ts| ==> Imbalance(ts[i].entries) == 0
    ensures UnbalancedTransfers(ts) == []
  {
    hide Imbalance;
    if ts != [] {
      NothingUnbalanced(ts[..|ts| - 1]);
    }
  }

  /** `unbalanced_transfers` lists each transfer whose entries do not sum to zero, with that sum, and no other. */
  lemma {:induction false} ListsTheUnbalanced(ts: seq<Transfer>, i: nat, sum: int)
    ensures (i, sum) in UnbalancedTransfers(ts) <==> i < |ts| && Imbalance(ts[i].entries) == sum != 0
  {
    hide Imbalance;
    if ts != [] {
      ListsTheUnbalanced(ts[..|ts| - 1], i, sum);
    }
  }

  /** The signed base amounts of the entries whose account is of a fund. */
  function ImbalanceOfFund(w: World, entries: seq<Entry>, fund: FundId): int {
    SumBy(entries, (e: Entry) =>
      if e.account < |w.accounts| && w.accounts[e.account].fund == fund then SignedBase(e) else 0)
  }

  lemma KindListed(ts: seq<Transfer>, t: Transfer)
    ensures EffectiveKind(ts, t) in AllKinds
  {
    match EffectiveKind(ts, t)
    case CapitalCall =>
    case Distribution =>
    case Fee =>
    case Investment =>
    case Reversal =>
    case Adjustment =>
  }

  /** On any rows whose foreign keys resolve, balanced or not, each imbalance sums the entries that it should. */
  lemma ImbalancesSumTheirEntries(w: World, ts: seq<Transfer>, period: PeriodId, fund: FundId)
    requires forall t :: t in ts ==> t.period < |w.periods|
    requires forall t, e :: t in ts && e in t.entries ==> e.account < |w.accounts|
    ensures PeriodImbalance(w, ts, period)
         == SumBy(ts, (t: Transfer) => if t.period == period then Imbalance(t.entries) else 0)
    ensures FundImbalance(w, ts, fund) == SumBy(ts, (t: Transfer) => ImbalanceOfFund(w, t.entries, fund))
    ensures TotalImbalance(w, ts) == SumBy(ts, (t: Transfer) => Imbalance(t.entries))
  {
    hide Imbalance, ImbalanceOfFund, BaseIn, EffectiveKind, AllAccounts, AllPeriods, FundAccounts;
    var every, ofFund := AllAccounts(w), FundAccounts(w, fund, AllTypes);
    forall t | t in ts
      ensures BaseTerm(ts, t, every, {period}, AllKinds) == if t.period == period then Imbalance(t.entries) else 0
      ensures BaseTerm(ts, t, ofFund, AllPeriods(w), AllKinds) == ImbalanceOfFund(w, t.entries, fund)
      ensures BaseTerm(ts, t, every, AllPeriods(w), AllKinds) == Imbalance(t.entries)
    {
      KindListed(ts, t);
      TransferImbalances(w, t, fund);
    }
    SumByCongruent(ts, t => BaseTerm(ts, t, every, {period}, AllKinds),
                   (t: Transfer) => if t.period == period then Imbalance(t.entries) else 0);
    SumByCongruent(ts, t => BaseTerm(ts, t, ofFund, AllPeriods(w), AllKinds),
                   (t: Transfer) => ImbalanceOfFund(w, t.entries, fund));
    SumByCongruent(ts, t => BaseTerm(ts, t, every, AllPeriods(w), AllKinds),
                   (t: Transfer) => Imbalance(t.entries));
  }

  lemma TransferImbalances(w: World, t: Transfer, fund: FundId)
    requires t.period < |w.periods| && forall e :: e in t.entries ==> e.account < |w.accounts|
    ensures t.period in AllPeriods(w) && BaseIn(t.entries, AllAccounts(w)) == Imbalance(t.entries)
    ensures BaseIn(t.entries, FundAccounts(w, fund, AllTypes)) == ImbalanceOfFund(w, t.entries, fund)
  {
    hide Imbalance;
    AllTouchedIsImbalance(t.entries, AllAccounts(w));
    var ofFund := FundAccounts(w, fund, AllTypes);
    forall e | e in t.entries
      ensures e.account in ofFund <==> e.account < |w.accounts| && w.accounts[e.account].fund == fund
    {
      EveryTypeListed(w.accounts[e.account].kind);
    }
    SumByCongruent(t.entries, (e: Entry) => if e.account in ofFund then SignedBase(e) else 0, (e: Entry) =>
      if e.account < |w.accounts| && w.accounts[e.account].fund == fund then SignedBase(e) else 0);
  }

  lemma TransferIsOk(w: World, ts: seq<Transfer>, i: nat)
    requires TransfersOk(w, ts) && i < |ts|
    ensures TransferOk(w, ts[..i], ts[i])
  {
  }

  lemma EntryAccounts(w: World, ts: seq<Transfer>, i: nat)
    requires TransfersOk(w, ts) && i < |ts|
    ensures ts[i].period < |w.periods| && Imbalance(ts[i].entries) == 0
    ensures forall e :: e in ts[i].entries ==>
      e.account in AllAccounts(w) && w.accounts[e.account].fund == w.periods[ts[i].period].fund
  {
    hide Imbalance, ReversalOk, TransfersOk;
    TransferIsOk(w, ts, i);
    forall e | e in ts[i].entries
      ensures e.account in AllAccounts(w) && w.accounts[e.account].fund == w.periods[ts[i].period].fund
    {
      var k :| 0 <= k < |ts[i].entries| && ts[i].entries[k] == e;
      assert EntryOk(w, w.periods[ts[i].period].fund, ts[i].entries[k]);
    }
  }

  lemma EveryTypeListed(kind: AccountType)
    ensures kind in AllTypes
  {
    match kind
    case Cash =>
    case Investments =>
    case FeeExpense =>
    case GainLoss =>
    case LpCapital =>
    case GpCapital =>
  }

  /** A fund's accounts balance in every set of periods. */
  lemma FundBalancesIn(w: World, ts: seq<Transfer>, fund: FundId, p: set<PeriodId>)
    requires TransfersOk(w, ts)
    ensures BaseSum(ts, FundAccounts(w, fund, AllTypes), p, AllKinds) == 0
  {
    hide TransfersOk, BaseSum, BaseIn, Imbalance;
    var a := FundAccounts(w, fund, AllTypes);
    forall i | 0 <= i < |ts| ensures BaseIn(ts[i].entries, a) == 0 {
      EntryAccounts(w, ts, i);
      if w.periods[ts[i].period].fund == fund {
        forall e | e in ts[i].entries ensures e.account in a {
          EveryTypeListed(w.accounts[e.account].kind);
        }
        AllTouchedIsImbalance(ts[i].entries, a);
      } else {
        UntouchedIsZero(ts[i].entries, a);
      }
    }
    BalancedTransfersSumToZero(ts, a, p);
  }

  lemma AllBalancesIn(w: World, ts: seq<Transfer>, p: set<PeriodId>)
    requires TransfersOk(w, ts)
    ensures BaseSum(ts, AllAccounts(w), p, AllKinds) == 0
  {
    hide TransfersOk, BaseSum, BaseIn, Imbalance, AllAccounts;
    forall i | 0 <= i < |ts| ensures BaseIn(ts[i].entries, AllAccounts(w)) == 0 {
      EntryAccounts(w, ts, i);
      AllTouchedIsImbalance(ts[i].entries, AllAccounts(w));
    }
    BalancedTransfersSumToZero(ts, AllAccounts(w), p);
  }

  /** Every transfer, every period, every fund and the whole system sum to zero in base currency. */
  lemma BooksBalanceAtEveryGrain(w: World, ts: seq<Transfer>, period: PeriodId, fund: FundId)
    requires LedgerOk(w, ts)
    ensures UnbalancedTransfers(ts) == []
    ensures PeriodImbalance(w, ts, period) == 0
    ensures FundImbalance(w, ts, fund) == 0
    ensures TotalImbalance(w, ts) == 0
  {
    hide TransfersOk, BaseSum, BaseIn, Imbalance, UniqueKeys, UniqueReversals, CashNonNegative;
    forall i | 0 <= i < |ts| ensures Imbalance(ts[i].entries) == 0 {
      EntryAccounts(w, ts, i);
    }
    NothingUnbalanced(ts);
    AllBalancesIn(w, ts, {period});
    FundBalancesIn(w, ts, fund, AllPeriods(w));
    AllBalancesIn(w, ts, AllPeriods(w));
  }

  /** So a close is only ever refused because an earlier period is open, or because there is no such period. */
  lemma OnlyOrderRefusesAClose(w: World, b: Books, fund: FundId, period: PeriodId)
    requires LedgerOk(w, b.transfers)
    ensures ClosedBooks(w, b, fund, period).1 == Failed(PeriodNotClosable) <==>
      period < |w.periods| && w.periods[period].fund == fund && period !in b.closed
      && !EarlierClosed(w, b.closed, period)
  {
    hide LedgerOk, PeriodImbalance, EarlierClosed;
    BooksBalanceAtEveryGrain(w, b.transfers, period, fund);
  }

  // ---- Reversals -----------------------------------------------------------------------------------------

  lemma {:induction false} FlipNegatesNative(entries: seq<Entry>, a: AccountId)
    requires forall i :: 0 <= i < |entries| ==> !entries[i].direction.Unknown?
    ensures NativeOn(FlippedEntries(entries), a) == -NativeOn(entries, a)
  {
    if entries != [] {
      var n := |entries| - 1;
      FlipNegatesNative(entries[..n], a);
      assert FlippedEntries(entries)[..n] == FlippedEntries(entries[..n]);
    }
  }

  /**
   * A reversal undoes exactly: on every account the original and its reversal sum to zero, in native and in base
   * currency; the original is not itself a reversal; and no other transfer reverses it.
   */
  lemma ReversalUndoesExactly(w: World, ts: seq<Transfer>, i: nat, a: AccountId)
    requires LedgerOk(w, ts) && i < |ts| && ts[i].reverses.Some?
    ensures var j := ts[i].reverses.value;
      && j < i && ts[j].kind != Reversal
      && NativeOn(ts[i].entries, a) + NativeOn(ts[j].entries, a) == 0
      && BaseIn(ts[i].entries, {a}) + BaseIn(ts[j].entries, {a}) == 0
      && (forall k :: 0 <= k < |ts| && ts[k].reverses == Some(j) ==> k == i)
  {
    hide BaseIn, NativeOn, Imbalance, UniqueKeys, CashNonNegative;
    var j := ts[i].reverses.value;
    assert TransferOk(w, ts[..i], ts[i]);
    assert ts[..i][j] == ts[j];
    assert TransferOk(w, ts[..j], ts[j]);
    FlipNegates(ts[j].entries, {a});
    FlipNegatesNative(ts[j].entries, a);
  }
}
