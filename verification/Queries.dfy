/**
 * Totals over entries (ledger/queries.py, ledger/reconciliation.py, operations/queries.py).
 *
 * Every base-currency query of the source is one filtered sum: `BaseSum` over a set of accounts, a set of
 * periods and a set of effective transfer types.
 */
module Queries {
  import opened Results
  import opened Sums
  import opened Types

  const AllKinds: set<TransferType> := {CapitalCall, Distribution, Fee, Investment, Reversal, Adjustment}

  const AllTypes: set<AccountType> := {Cash, Investments, FeeExpense, GainLoss, LpCapital, GpCapital}

  function AllPeriods(w: World): set<PeriodId> { Below(|w.periods|) }

  function AllAccounts(w: World): set<AccountId> { Below(|w.accounts|) }

  function Below(n: nat): (s: set<nat>)
    ensures forall x: nat :: x in s <==> x < n
  {
    if n == 0 then {} else Below(n - 1) + {n - 1}
  }

  function FundAccounts(w: World, fund: FundId, kinds: set<AccountType>): set<AccountId> {
    set a: nat | 0 <= a < |w.accounts| && w.accounts[a].fund == fund && w.accounts[a].kind in kinds
  }

  /** A reversal counts as the type of the transfer it reverses. */
  function EffectiveKind(ts: seq<Transfer>, t: Transfer): TransferType {
    if t.reverses.Some? && t.reverses.value < |ts| then ts[t.reverses.value].kind else t.kind
  }

  function BaseTerm(ts: seq<Transfer>, t: Transfer, a: set<AccountId>, p: set<PeriodId>, k: set<TransferType>): int {
    if t.period in p && EffectiveKind(ts, t) in k then BaseIn(t.entries, a) else 0
  }

  function BaseSum(ts: seq<Transfer>, a: set<AccountId>, p: set<PeriodId>, k: set<TransferType>): int {
    SumBy(ts, t => BaseTerm(ts, t, a, p, k))
  }

  function NativeBalance(ts: seq<Transfer>, account: AccountId): int {
    SumBy(ts, (t: Transfer) => NativeOn(t.entries, account))
  }

  function PeriodImbalance(w: World, ts: seq<Transfer>, period: PeriodId): int {
    BaseSum(ts, AllAccounts(w), {period}, AllKinds)
  }

  function FundImbalance(w: World, ts: seq<Transfer>, fund: FundId): int {
    BaseSum(ts, FundAccounts(w, fund, AllTypes), AllPeriods(w), AllKinds)
  }

  function TotalImbalance(w: World, ts: seq<Transfer>): int {
    BaseSum(ts, AllAccounts(w), AllPeriods(w), AllKinds)
  }

  /** Net capital paid in through one LP account; capital is credit-normal. */
  function Contributed(w: World, ts: seq<Transfer>, account: AccountId): int {
    -BaseSum(ts, {account}, AllPeriods(w), {CapitalCall})
  }

  /** The transfer with an idempotency key; |ts| when there is none. */
  function KeyIndex(ts: seq<Transfer>, key: string): (i: nat)
    ensures i <= |ts|
    ensures i < |ts| ==> ts[i].key == key
    ensures forall j :: 0 <= j < i ==> ts[j].key != key
  {
    FirstIndex(ts, (t: Transfer) => t.key == key)
  }

  /** The reversal of a transfer; |ts| when there is none. */
  function ReversalIndex(ts: seq<Transfer>, target: TransferId): (i: nat)
    ensures i <= |ts|
    ensures i < |ts| ==> ts[i].reverses == Some(target)
    ensures forall j :: 0 <= j < i ==> ts[j].reverses != Some(target)
  {
    FirstIndex(ts, (t: Transfer) => t.reverses == Some(target))
  }

  // ---- Laws of the filtered sum --------------------------------------------------------------------------

  /** Reversals point at earlier transfers, so an effective type never changes as the ledger grows. */
  ghost predicate PointsBack(ts: seq<Transfer>) {
    forall i :: 0 <= i < |ts| && ts[i].reverses.Some? ==> ts[i].reverses.value < i
  }

  lemma BaseSumAppend(ts: seq<Transfer>, t: Transfer, a: set<AccountId>, p: set<PeriodId>, k: set<TransferType>)
    requires PointsBack(ts)
    ensures BaseSum(ts + [t], a, p, k) == BaseSum(ts, a, p, k) + BaseTerm(ts + [t], t, a, p, k)
  {
    var longer := x => BaseTerm(ts + [t], x, a, p, k);
    SumByAppend(ts, t, longer);
    forall i | 0 <= i < |ts| ensures longer(ts[i]) == BaseTerm(ts, ts[i], a, p, k) {
      assert (ts + [t])[..|ts|] == ts;
    }
    SumByCongruent(ts, x => BaseTerm(ts, x, a, p, k), longer);
  }

  lemma NativeAppend(ts: seq<Transfer>, t: Transfer, account: AccountId)
    ensures NativeBalance(ts + [t], account) == NativeBalance(ts, account) + NativeOn(t.entries, account)
  {
    SumByAppend(ts, t, (t: Transfer) => NativeOn(t.entries, account));
  }

  lemma BaseInSplits(entries: seq<Entry>, a: set<AccountId>, b: set<AccountId>)
    requires a !! b
    ensures BaseIn(entries, a + b) == BaseIn(entries, a) + BaseIn(entries, b)
  {
    SumByAdds(entries, (e: Entry) => if e.account in a then SignedBase(e) else 0,
              (e: Entry) => if e.account in b then SignedBase(e) else 0,
              (e: Entry) => if e.account in a + b then SignedBase(e) else 0);
  }

  lemma SplitByAccounts(ts: seq<Transfer>, a: set<AccountId>, b: set<AccountId>, p: set<PeriodId>,
                        k: set<TransferType>)
    requires a !! b
    ensures BaseSum(ts, a + b, p, k) == BaseSum(ts, a, p, k) + BaseSum(ts, b, p, k)
  {
    forall t ensures BaseTerm(ts, t, a + b, p, k) == BaseTerm(ts, t, a, p, k) + BaseTerm(ts, t, b, p, k) {
      BaseInSplits(t.entries, a, b);
    }
    SumByAdds(ts, t => BaseTerm(ts, t, a, p, k), t => BaseTerm(ts, t, b, p, k), t => BaseTerm(ts, t, a + b, p, k));
  }

  lemma SplitByPeriods(ts: seq<Transfer>, a: set<AccountId>, p: set<PeriodId>, q: set<PeriodId>,
                       k: set<TransferType>)
    requires p !! q
    ensures BaseSum(ts, a, p + q, k) == BaseSum(ts, a, p, k) + BaseSum(ts, a, q, k)
  {
    SumByAdds(ts, t => BaseTerm(ts, t, a, p, k), t => BaseTerm(ts, t, a, q, k), t => BaseTerm(ts, t, a, p + q, k));
  }

  lemma SplitByKinds(ts: seq<Transfer>, a: set<AccountId>, p: set<PeriodId>, k: set<TransferType>,
                     l: set<TransferType>)
    requires k !! l
    ensures BaseSum(ts, a, p, k + l) == BaseSum(ts, a, p, k) + BaseSum(ts, a, p, l)
  {
    SumByAdds(ts, t => BaseTerm(ts, t, a, p, k), t => BaseTerm(ts, t, a, p, l), t => BaseTerm(ts, t, a, p, k + l));
  }

  lemma EmptySelections(ts: seq<Transfer>, a: set<AccountId>, p: set<PeriodId>, k: set<TransferType>)
    ensures BaseSum(ts, {}, p, k) == 0
    ensures BaseSum(ts, a, {}, k) == 0
  {
    forall t ensures BaseTerm(ts, t, {}, p, k) == 0 {
      UntouchedIsZero(t.entries, {});
    }
    SumByZero(ts, t => BaseTerm(ts, t, {}, p, k));
    SumByZero(ts, t => BaseTerm(ts, t, a, {}, k));
  }

  lemma UntouchedIsZero(entries: seq<Entry>, a: set<AccountId>)
    requires forall e :: e in entries ==> e.account !in a
    ensures BaseIn(entries, a) == 0
  {
    SumByZero(entries, (e: Entry) => if e.account in a then SignedBase(e) else 0);
  }

  lemma AllTouchedIsImbalance(entries: seq<Entry>, a: set<AccountId>)
    requires forall e :: e in entries ==> e.account in a
    ensures BaseIn(entries, a) == Imbalance(entries)
  {
    SumByCongruent(entries, (e: Entry) => if e.account in a then SignedBase(e) else 0, (e: Entry) => SignedBase(e));
  }

  /**
   * Double entry at any grain: a set of periods in which every transfer balances within the given accounts sums
   * to zero.
   */
  lemma BalancedTransfersSumToZero(ts: seq<Transfer>, a: set<AccountId>, p: set<PeriodId>)
    requires forall i :: 0 <= i < |ts| && ts[i].period in p ==> BaseIn(ts[i].entries, a) == 0
    ensures BaseSum(ts, a, p, AllKinds) == 0
  {
    SumByZero(ts, t => BaseTerm(ts, t, a, p, AllKinds));
  }

  /** A transfer outside the selected periods, or off the selected accounts, does not move a filtered sum. */
  lemma UnrelatedTransfer(ts: seq<Transfer>, t: Transfer, a: set<AccountId>, p: set<PeriodId>, k: set<TransferType>)
    requires PointsBack(ts)
    requires t.period !in p || (forall e :: e in t.entries ==> e.account !in a) || EffectiveKind(ts + [t], t) !in k
    ensures BaseSum(ts + [t], a, p, k) == BaseSum(ts, a, p, k)
  {
    BaseSumAppend(ts, t, a, p, k);
    if forall e :: e in t.entries ==> e.account !in a {
      UntouchedIsZero(t.entries, a);
    }
  }

  // ---- The grouped query ---------------------------------------------------------------------------------

  /** The rows of the grouped query: accounts that have entries of effective type CAPITAL_CALL, with their sums. */
  function GroupedCallTotals(w: World, ts: seq<Transfer>, ids: seq<AccountId>): (m: map<AccountId, int>)
    ensures m.Keys <= (set i | 0 <= i < |ids| :: ids[i])
  {
    map i | i in ids && HasCallEntry(ts, i) :: BaseSum(ts, {i}, AllPeriods(w), {CapitalCall})
  }

  predicate HasCallEntry(ts: seq<Transfer>, account: AccountId) {
    exists i :: 0 <= i < |ts| && EffectiveKind(ts, ts[i]) == CapitalCall &&
      exists j :: 0 <= j < |ts[i].entries| && ts[i].entries[j].account == account
  }

  /** `contributed_by_account`: one grouped query, with zero for the accounts that have no group. */
  function ContributedByAccount(w: World, ts: seq<Transfer>, ids: seq<AccountId>): map<AccountId, int> {
    var totals := GroupedCallTotals(w, ts, ids);
    map i | i in ids :: -(if i in totals then totals[i] else 0)
  }

  /** The grouped map is the per-account fold on every account asked for, and nothing else. */
  lemma GroupedIsPerAccount(w: World, ts: seq<Transfer>, ids: seq<AccountId>)
    ensures ContributedByAccount(w, ts, ids).Keys == (set i | 0 <= i < |ids| :: ids[i])
    ensures forall i :: i in ids ==> ContributedByAccount(w, ts, ids)[i] == Contributed(w, ts, i)
  {
    forall i | i in ids && !HasCallEntry(ts, i) ensures Contributed(w, ts, i) == 0 {
      forall n | 0 <= n < |ts| ensures BaseTerm(ts, ts[n], {i}, AllPeriods(w), {CapitalCall}) == 0 {
        if EffectiveKind(ts, ts[n]) == CapitalCall {
          UntouchedIsZero(ts[n].entries, {i});
        }
      }
      SumByZero(ts, t => BaseTerm(ts, t, {i}, AllPeriods(w), {CapitalCall}));
    }
  }
}
