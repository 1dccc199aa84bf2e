/** Capital account statements and net asset value, folds over the entries (operations/statements.py). */
module Statements {
  import opened Results
  import opened Sums
  import opened Types
  import opened Chart
  import opened Queries
  import opened Posting
  import opened Operations
  import opened Invariants
  import opened Capital
  import opened Commitments
  import opened Reconciliation
  import opened Machine
  import opened Locks
  import opened Facts
  import opened Serializability
  import opened Safety
  import Allocation

  datatype Movement = Movement(contributions: int, distributions: int, other: int, gains: int, fees: int)
  {
    function Net(): int { contributions - distributions + other + gains - fees }
  }

  datatype Statement = Statement(
    opening: int, current: Movement, closing: int, commitment: int, contributedToDate: int, unfunded: int)

  const OtherKinds: set<TransferType> := AllKinds - {CapitalCall} - {Distribution}

  function FundTotal(w: World, ts: seq<Transfer>, fund: FundId, kind: AccountType, p: PeriodId): int {
    BaseSum(ts, FundAccounts(w, fund, {kind}), {p}, AllKinds)
  }

  /** One partner's share of a total, by commitment, to the last 0.0001. */
  function ShareOf(w: World, fund: FundId, total: int, i: nat): int {
    var r := Allocation.Allocated(total, Items(CommitmentsOf(w, fund)), FOUR_DP);
    if r.Ok? && i < |r.value| then r.value[i] else 0
  }

  /** Partner i's movement in a period. */
  function MovementOf(w: World, ts: seq<Transfer>, fund: FundId, i: nat, p: PeriodId): Movement
    requires i < |CommitmentsOf(w, fund)|
  {
    var a := {LpAccount(w, fund, CommitmentsOf(w, fund)[i].lp)};
    Movement(
      -BaseSum(ts, a, {p}, {CapitalCall}),
      BaseSum(ts, a, {p}, {Distribution}),
      -BaseSum(ts, a, {p}, OtherKinds),
      ShareOf(w, fund, -FundTotal(w, ts, fund, GainLoss, p), i),
      ShareOf(w, fund, FundTotal(w, ts, fund, FeeExpense, p), i))
  }

  /** The fund's periods that start no later than a date, in start order. */
  function PeriodsThrough(w: World, fund: FundId, start: Date): seq<PeriodId> {
    PeriodsBelow(w, fund, start, |w.periods|)
  }

  function PeriodsBelow(w: World, fund: FundId, start: Date, n: nat): (r: seq<PeriodId>)
    requires n <= |w.periods|
    ensures forall q: nat :: q in r <==> q < n && w.periods[q].fund == fund && w.periods[q].start <= start
    ensures forall i, j :: 0 <= i < j < |r| ==> r[i] < r[j]
  {
    if n == 0 then []
    else
      var front := PeriodsBelow(w, fund, start, n - 1);
      assert forall i :: 0 <= i < |front| ==> front[i] in front;
      front + (if w.periods[n - 1].fund == fund && w.periods[n - 1].start <= start then [n - 1] else [])
  }

  function NetThrough(w: World, ts: seq<Transfer>, fund: FundId, i: nat, qs: seq<PeriodId>): int
    requires i < |CommitmentsOf(w, fund)|
  {
    SumBy(qs, (q: PeriodId) => MovementOf(w, ts, fund, i, q).Net())
  }

  function ContributedThrough(w: World, ts: seq<Transfer>, fund: FundId, i: nat, qs: seq<PeriodId>): int
    requires i < |CommitmentsOf(w, fund)|
  {
    SumBy(qs, (q: PeriodId) => MovementOf(w, ts, fund, i, q).contributions)
  }

  /** The periods of p's fund that start before p. */
  function PeriodsBefore(w: World, p: PeriodId): seq<PeriodId>
    requires p < |w.periods|
  {
    PeriodsBelow(w, w.periods[p].fund, w.periods[p].start, p)
  }

  /** Partner i's statement for a period. */
  function StatementOf(w: World, ts: seq<Transfer>, p: PeriodId, i: nat): Statement
    requires p < |w.periods| && i < |CommitmentsOf(w, w.periods[p].fund)|
  {
    var fund := w.periods[p].fund;
    var current := MovementOf(w, ts, fund, i, p);
    var opening := NetThrough(w, ts, fund, i, PeriodsBefore(w, p));
    var toDate := ContributedThrough(w, ts, fund, i, PeriodsBefore(w, p)) + current.contributions;
    var commitment := CommitmentsOf(w, fund)[i].committed;
    Statement(opening, current, opening + current.Net(), commitment, toDate, commitment - toDate)
  }

  function NavPeriods(w: World, p: PeriodId): set<PeriodId>
    requires p < |w.periods|
  {
    set q | q in AllPeriods(w) && w.periods[q].start <= w.periods[p].start
  }

  /** `nav(fund, through_period=p)` for a period p of the fund. */
  function NavThrough(w: World, ts: seq<Transfer>, p: PeriodId): int
    requires p < |w.periods|
  {
    BaseSum(ts, FundAccounts(w, w.periods[p].fund, {Cash, Investments}), NavPeriods(w, p), AllKinds)
  }

  /** `nav(fund)`: over every period. */
  function NavNow(w: World, ts: seq<Transfer>, fund: FundId): int {
    BaseSum(ts, FundAccounts(w, fund, {Cash, Investments}), AllPeriods(w), AllKinds)
  }

  /** The stored rows, one for each fund and end date, once a period's net asset value is written over its row. */
  function Snapshotted(w: World, ts: seq<Transfer>, rows: map<(FundId, Date), int>, p: PeriodId)
    : map<(FundId, Date), int>
    requires p < |w.periods|
  {
    rows[(w.periods[p].fund, w.periods[p].end) := NavThrough(w, ts, p)]
  }

  // ---- Periods in order ----------------------------------------------------------------------------------

  lemma BelowStep(w: World, fund: FundId, start: Date, m: nat)
    requires m < |w.periods|
    ensures PeriodsBelow(w, fund, start, m + 1) == PeriodsBelow(w, fund, start, m)
      + if w.periods[m].fund == fund && w.periods[m].start <= start then [m] else []
  {
  }

  lemma {:induction false} PeriodsPastAreLater(w: World, p: PeriodId, n: nat)
    requires WorldOk(w) && p < n <= |w.periods|
    ensures PeriodsBelow(w, w.periods[p].fund, w.periods[p].start, n) == PeriodsBefore(w, p) + [p]
    decreases n
  {
    hide WorldOk, PeriodsBelow;
    BelowStep(w, w.periods[p].fund, w.periods[p].start, n - 1);
    if n > p + 1 {
      PeriodsPastAreLater(w, p, n - 1);
      LaterStartAny(w, p, n - 1);
    }
  }

  lemma LaterStart(w: World, p: PeriodId, q: PeriodId)
    requires WorldOk(w) && p < q < |w.periods| && w.periods[p].fund == w.periods[q].fund
    ensures w.periods[p].start < w.periods[q].start
  {
    hide Opened, Owned, StandardCodes;
  }

  lemma LaterStartAny(w: World, p: PeriodId, q: PeriodId)
    requires WorldOk(w) && p < q < |w.periods|
    ensures w.periods[p].fund == w.periods[q].fund ==> w.periods[p].start < w.periods[q].start
  {
  }

  /** The periods through p are those before it, then p itself. */
  lemma ThroughEndsWithPeriod(w: World, p: PeriodId)
    requires WorldOk(w) && p < |w.periods|
    ensures PeriodsThrough(w, w.periods[p].fund, w.periods[p].start) == PeriodsBefore(w, p) + [p]
  {
    hide WorldOk;
    PeriodsPastAreLater(w, p, |w.periods|);
  }

  lemma ClosingIsNetThrough(w: World, ts: seq<Transfer>, p: PeriodId, i: nat)
    requires WorldOk(w) && p < |w.periods| && i < |CommitmentsOf(w, w.periods[p].fund)|
    ensures var fund := w.periods[p].fund;
      StatementOf(w, ts, p, i).closing == NetThrough(w, ts, fund, i, PeriodsThrough(w, fund, w.periods[p].start))
  {
    hide WorldOk, MovementOf, PeriodsThrough;
    var fund := w.periods[p].fund;
    ThroughEndsWithPeriod(w, p);
    SumByAppend(PeriodsBefore(w, p), p, (q: PeriodId) => MovementOf(w, ts, fund, i, q).Net());
  }

  predicate Follows(w: World, p: PeriodId, q: PeriodId)
    requires p < |w.periods| && q < |w.periods|
  {
    w.periods[p].fund == w.periods[q].fund && p < q &&
    forall r: nat :: p < r < q ==> w.periods[r].fund != w.periods[p].fund
  }

  lemma {:induction false} BeforeNext(w: World, p: PeriodId, q: PeriodId, n: nat)
    requires WorldOk(w) && q < |w.periods| && p < n <= q && Follows(w, p, q)
    ensures PeriodsBelow(w, w.periods[q].fund, w.periods[q].start, n) == PeriodsBefore(w, p) + [p]
    decreases n
  {
    hide WorldOk, PeriodsBelow;
    BelowStep(w, w.periods[q].fund, w.periods[q].start, n - 1);
    if n == p + 1 {
      LaterStart(w, p, q);
      SameBelow(w, p, q, p);
    } else {
      BeforeNext(w, p, q, n - 1);
    }
  }

  lemma {:induction false} SameBelow(w: World, p: PeriodId, q: PeriodId, n: nat)
    requires WorldOk(w) && n <= p < q < |w.periods| && w.periods[p].fund == w.periods[q].fund
    ensures PeriodsBelow(w, w.periods[q].fund, w.periods[q].start, n)
      == PeriodsBelow(w, w.periods[p].fund, w.periods[p].start, n)
  {
    hide WorldOk;
    if n == 0 {
    } else {
      hide PeriodsBelow;
      var m := n - 1;
      SameBelow(w, p, q, m);
      if w.periods[m].fund == w.periods[p].fund {
        LaterStart(w, m, p);
        LaterStart(w, m, q);
      }
      BelowStep(w, w.periods[p].fund, w.periods[p].start, m);
      BelowStep(w, w.periods[q].fund, w.periods[q].start, m);
    }
  }

  /** Each period opens with the balance the fund's previous period closed with. */
  lemma OpeningIsPreviousClosing(w: World, ts: seq<Transfer>, p: PeriodId, q: PeriodId, i: nat)
    requires WorldOk(w) && p < |w.periods| && q < |w.periods| && Follows(w, p, q)
    requires i < |CommitmentsOf(w, w.periods[p].fund)|
    ensures StatementOf(w, ts, q, i).opening == StatementOf(w, ts, p, i).closing
  {
    hide WorldOk, MovementOf;
    var fund := w.periods[p].fund;
    BeforeNext(w, p, q, q);
    SumByAppend(PeriodsBefore(w, p), p, (r: PeriodId) => MovementOf(w, ts, fund, i, r).Net());
  }

  // ---- Sums over periods and kinds -----------------------------------------------------------------------

  function PeriodSet(qs: seq<PeriodId>): set<PeriodId> { set i | 0 <= i < |qs| :: qs[i] }

  lemma {:induction false} SumOverPeriods(ts: seq<Transfer>, a: set<AccountId>, qs: seq<PeriodId>,
                                          k: set<TransferType>)
    requires forall i, j :: 0 <= i < j < |qs| ==> qs[i] != qs[j]
    ensures SumBy(qs, (q: PeriodId) => BaseSum(ts, a, {q}, k)) == BaseSum(ts, a, PeriodSet(qs), k)
  {
    hide BaseSum;
    if qs == [] {
      EmptySelections(ts, a, {}, k);
      assert PeriodSet(qs) == {};
    } else {
      var n := |qs| - 1;
      SumOverPeriods(ts, a, qs[..n], k);
      assert PeriodSet(qs) == PeriodSet(qs[..n]) + {qs[n]};
      SplitByPeriods(ts, a, PeriodSet(qs[..n]), {qs[n]}, k);
    }
  }

  /** Contributions, distributions and the rest are all of the account's movement. */
  lemma KindsPartition(ts: seq<Transfer>, a: set<AccountId>, p: set<PeriodId>)
    ensures BaseSum(ts, a, p, AllKinds)
      == BaseSum(ts, a, p, {CapitalCall}) + BaseSum(ts, a, p, {Distribution}) + BaseSum(ts, a, p, OtherKinds)
  {
    hide BaseSum;
    assert AllKinds == {CapitalCall} + ({Distribution} + OtherKinds);
    SplitByKinds(ts, a, p, {CapitalCall}, {Distribution} + OtherKinds);
    SplitByKinds(ts, a, p, {Distribution}, OtherKinds);
  }

  /** A fund's accounts, split by type. */
  lemma TypesPartition(w: World, ts: seq<Transfer>, fund: FundId, p: set<PeriodId>)
    ensures BaseSum(ts, FundAccounts(w, fund, AllTypes), p, AllKinds)
      == BaseSum(ts, FundAccounts(w, fund, {Cash, Investments}), p, AllKinds)
       + BaseSum(ts, FundAccounts(w, fund, {FeeExpense}), p, AllKinds)
       + BaseSum(ts, FundAccounts(w, fund, {GainLoss}), p, AllKinds)
       + BaseSum(ts, FundAccounts(w, fund, {LpCapital}), p, AllKinds)
       + BaseSum(ts, FundAccounts(w, fund, {GpCapital}), p, AllKinds)
  {
    hide BaseSum;
    var c1: set<AccountType>, c2: set<AccountType> := {Cash, Investments}, {Cash, Investments, FeeExpense};
    var c3: set<AccountType> := {Cash, Investments, FeeExpense, GainLoss};
    var c4: set<AccountType> := {Cash, Investments, FeeExpense, GainLoss, LpCapital};
    TypesStep(w, ts, fund, p, c1, FeeExpense, c2);
    TypesStep(w, ts, fund, p, c2, GainLoss, c3);
    TypesStep(w, ts, fund, p, c3, LpCapital, c4);
    TypesStep(w, ts, fund, p, c4, GpCapital, AllTypes);
  }

  lemma TypesStep(w: World, ts: seq<Transfer>, fund: FundId, p: set<PeriodId>, some: set<AccountType>,
                  kind: AccountType, more: set<AccountType>)
    requires kind !in some && more == some + {kind}
    ensures BaseSum(ts, FundAccounts(w, fund, more), p, AllKinds)
      == BaseSum(ts, FundAccounts(w, fund, some), p, AllKinds) + BaseSum(ts, FundAccounts(w, fund, {kind}), p, AllKinds)
  {
    hide BaseSum;
    assert FundAccounts(w, fund, more) == FundAccounts(w, fund, some) + FundAccounts(w, fund, {kind});
    SplitByAccounts(ts, FundAccounts(w, fund, some), FundAccounts(w, fund, {kind}), p, AllKinds);
  }

  // ---- Partners' capital in one period -------------------------------------------------------------------

  /** The shares of an allocated total add up to it. */
  lemma SharesAddUp(w: World, fund: FundId, total: int)
    requires WorldOk(w) && CommitmentsOf(w, fund) != []
    ensures SumBy(Range(|CommitmentsOf(w, fund)|), (i: int) => if i >= 0 then ShareOf(w, fund, total, i) else 0)
      == total
  {
    var items := Items(CommitmentsOf(w, fund));
    CommitmentsUsable(w, fund);
    Allocation.SucceedsIff(total, items, FOUR_DP);
    Allocation.SharesSumToTotal(total, items, FOUR_DP);
    hide WorldOk, Allocation.Allocated, Items, CommitmentsOf;
    Allocation.SumOfSeq(Allocation.Allocated(total, items, FOUR_DP).value,
                        (i: int) => if i >= 0 then ShareOf(w, fund, total, i) else 0);
  }

  /** Committed amounts are usable weights. */
  lemma CommitmentsUsable(w: World, fund: FundId)
    requires WorldOk(w) && CommitmentsOf(w, fund) != []
    ensures Allocation.Usable(Items(CommitmentsOf(w, fund)))
  {
    var cs := CommitmentsOf(w, fund);
    forall i | 0 <= i < |cs| ensures cs[i].committed > 0 {
      assert cs[i] in cs;
      PartnerAccount(w, fund, cs[i]);
    }
    hide WorldOk, CommitmentsOf;
    PositiveWeights(Items(cs));
  }

  lemma {:induction false} PositiveWeights(items: seq<Allocation.Item>)
    requires items != [] && forall i :: 0 <= i < |items| ==> items[i].weight > 0
    ensures Allocation.WeightSum(items) > 0
  {
    var front, last := items[..|items| - 1], items[|items| - 1];
    assert items == front + [last];
    SumByAppend(front, last, (it: Allocation.Item) => it.weight);
    if front != [] {
      PositiveWeights(front);
    }
  }

  /** The fund's committed amounts, summed over the commitments table. */
  function FundCommitted(w: World, fund: FundId): int {
    SumBy(w.commitments, (c: Commitment) => if c.fund == fund then c.committed else 0)
  }

  lemma {:induction false} RowsWeight(cs: seq<Commitment>, fund: FundId)
    ensures Allocation.WeightSum(Items(RowsOf(cs, fund)))
      == SumBy(cs, (c: Commitment) => if c.fund == fund then c.committed else 0)
  {
    if cs != [] {
      var n := |cs| - 1;
      var front := RowsOf(cs[..n], fund);
      RowsWeight(cs[..n], fund);
      if cs[n].fund == fund {
        assert Items(front + [cs[n]]) == Items(front) + [Allocation.Item(cs[n].lp, cs[n].committed)];
        SumByAppend(Items(front), Allocation.Item(cs[n].lp, cs[n].committed), (it: Allocation.Item) => it.weight);
      } else {
        assert RowsOf(cs, fund) == front;
      }
    }
  }

  /** A share is within one unit of the total times the partner's commitment over the fund's. */
  lemma ShareIsProRata(w: World, fund: FundId, total: int, i: nat)
    requires WorldOk(w) && i < |CommitmentsOf(w, fund)|
    ensures var all, own := FundCommitted(w, fund), CommitmentsOf(w, fund)[i].committed;
      -all < ShareOf(w, fund, total, i) * all - total * own < all
  {
    hide WorldOk, Allocation.Allocated, RowsOf;
    var items := Items(CommitmentsOf(w, fund));
    CommitmentsUsable(w, fund);
    Allocation.SucceedsIff(total, items, FOUR_DP);
    Allocation.WithinOneQuantum(total, items, FOUR_DP, i);
    RowsWeight(w.commitments, fund);
  }

  /**
   * In every period, a partner's allocated gains are the fund's gains (GAIN_LOSS is credit-normal) by commitment,
   * and the allocated fees the fund's fees by commitment, each to within one unit of 0.0001.
   */
  lemma GainsAndFeesAreProRata(w: World, ts: seq<Transfer>, p: PeriodId, i: nat)
    requires WorldOk(w) && p < |w.periods| && i < |CommitmentsOf(w, w.periods[p].fund)|
    ensures var fund, current := w.periods[p].fund, StatementOf(w, ts, p, i).current;
      var all, own := FundCommitted(w, fund), CommitmentsOf(w, fund)[i].committed;
      var gainLoss := BaseSum(ts, FundAccounts(w, fund, {GainLoss}), {p}, AllKinds);
      var feeExpense := BaseSum(ts, FundAccounts(w, fund, {FeeExpense}), {p}, AllKinds);
      && -all < current.gains * all + gainLoss * own < all
      && -all < current.fees * all - feeExpense * own < all
  {
    hide WorldOk, BaseSum, ShareOf, FundAccounts, CommitmentsOf, FundCommitted, LpAccount, NetThrough;
    hide ContributedThrough;
    var fund := w.periods[p].fund;
    ShareIsProRata(w, fund, -FundTotal(w, ts, fund, GainLoss, p), i);
    ShareIsProRata(w, fund, FundTotal(w, ts, fund, FeeExpense, p), i);
    var g, own := BaseSum(ts, FundAccounts(w, fund, {GainLoss}), {p}, AllKinds), CommitmentsOf(w, fund)[i].committed;
    assert (-g) * own == -(g * own);
  }

  function LedgerNet(w: World, ts: seq<Transfer>, fund: FundId, i: int, q: PeriodId): int {
    var ids := LpAccountIds(w, fund, CommitmentsOf(w, fund));
    if 0 <= i < |ids| then -BaseSum(ts, {ids[i]}, {q}, AllKinds) else 0
  }

  lemma NetParts(w: World, ts: seq<Transfer>, fund: FundId, i: nat, q: PeriodId)
    requires i < |CommitmentsOf(w, fund)|
    ensures MovementOf(w, ts, fund, i, q).Net() == LedgerNet(w, ts, fund, i, q)
      + ShareOf(w, fund, -FundTotal(w, ts, fund, GainLoss, q), i)
      - ShareOf(w, fund, FundTotal(w, ts, fund, FeeExpense, q), i)
  {
    hide BaseSum, ShareOf, FundTotal, LpAccount;
    KindsPartition(ts, {LpAccount(w, fund, CommitmentsOf(w, fund)[i].lp)}, {q});
  }

  lemma LedgerNetSum(w: World, ts: seq<Transfer>, fund: FundId, q: PeriodId)
    requires WorldOk(w)
    ensures SumBy(Range(|CommitmentsOf(w, fund)|), i => LedgerNet(w, ts, fund, i, q))
      == -BaseSum(ts, FundAccounts(w, fund, {LpCapital}), {q}, AllKinds)
  {
    hide WorldOk, BaseSum, FundAccounts;
    var ids := LpAccountIds(w, fund, CommitmentsOf(w, fund));
    var f := (a: AccountId) => BaseSum(ts, {a}, {q}, AllKinds);
    PartnersSum(w, fund, ts, {q}, AllKinds);
    SumByScales(ids, -1, f, (a: AccountId) => -f(a));
    Allocation.IndexSum(ids, (a: AccountId) => -f(a), i => LedgerNet(w, ts, fund, i, q));
  }

  function NetAt(w: World, ts: seq<Transfer>, fund: FundId, i: int, q: PeriodId): int {
    if 0 <= i < |CommitmentsOf(w, fund)| then MovementOf(w, ts, fund, i, q).Net() else 0
  }

  /** In one period the partners' net movements are the movement of the fund's assets and of the general partner. */
  lemma PartnersNetInPeriod(w: World, ts: seq<Transfer>, fund: FundId, q: PeriodId)
    requires WorldOk(w) && TransfersOk(w, ts) && CommitmentsOf(w, fund) != []
    ensures CapitalIn(w, ts, fund, q) == BaseSum(ts, FundAccounts(w, fund, {Cash, Investments}), {q}, AllKinds)
       + BaseSum(ts, FundAccounts(w, fund, {GpCapital}), {q}, AllKinds)
  {
    hide WorldOk, TransfersOk, BaseSum, FundAccounts, ShareOf, LedgerNet, MovementOf, CommitmentsOf;
    var n := |CommitmentsOf(w, fund)|;
    var gains, fees := -FundTotal(w, ts, fund, GainLoss, q), FundTotal(w, ts, fund, FeeExpense, q);
    var ledger := i => LedgerNet(w, ts, fund, i, q);
    var gain := (i: int) => if i >= 0 then ShareOf(w, fund, gains, i) else 0;
    var fee := (i: int) => if i >= 0 then ShareOf(w, fund, fees, i) else 0;
    forall i | 0 <= i < n ensures NetAt(w, ts, fund, i, q) == ledger(i) + gain(i) - fee(i) {
      NetParts(w, ts, fund, i, q);
    }
    SharesAddUp(w, fund, gains);
    SharesAddUp(w, fund, fees);
    LedgerNetSum(w, ts, fund, q);
    ThreeSums(Range(n), ledger, gain, fee, i => NetAt(w, ts, fund, i, q));
    FundBalancesIn(w, ts, fund, {q});
    TypesPartition(w, ts, fund, {q});
  }

  lemma ThreeSums(s: seq<int>, f: int -> int, g: int -> int, h: int -> int, total: int -> int)
    requires forall i :: 0 <= i < |s| ==> total(s[i]) == f(s[i]) + g(s[i]) - h(s[i])
    ensures SumBy(s, total) == SumBy(s, f) + SumBy(s, g) - SumBy(s, h)
  {
    SumByAdds(s, f, g, i => f(i) + g(i));
    SumByAdds(s, total, h, i => f(i) + g(i));
  }

  // ---- Partners' capital equals net asset value ----------------------------------------------------------

  /** Partner i's closing balance for p, or 0 past the last partner. */
  function ClosingAt(w: World, ts: seq<Transfer>, p: PeriodId, i: int): int
    requires p < |w.periods|
  {
    if 0 <= i < |CommitmentsOf(w, w.periods[p].fund)| then StatementOf(w, ts, p, i).closing else 0
  }

  function PartnersCapital(w: World, ts: seq<Transfer>, p: PeriodId): int
    requires p < |w.periods|
  {
    SumBy(Range(|CommitmentsOf(w, w.periods[p].fund)|), i => ClosingAt(w, ts, p, i))
  }

  /** The general partner's balance through p, debit-positive. */
  function GpThrough(w: World, ts: seq<Transfer>, p: PeriodId): int
    requires p < |w.periods|
  {
    BaseSum(ts, FundAccounts(w, w.periods[p].fund, {GpCapital}), NavPeriods(w, p), AllKinds)
  }

  lemma ThroughIsDistinct(w: World, p: PeriodId)
    requires p < |w.periods|
    ensures var qs := PeriodsThrough(w, w.periods[p].fund, w.periods[p].start);
      forall i, j :: 0 <= i < j < |qs| ==> qs[i] != qs[j]
  {
  }

  /** Only the fund's own periods can hold entries on its accounts. */
  lemma OwnPeriodsMatter(w: World, ts: seq<Transfer>, p: PeriodId, kinds: set<AccountType>)
    requires TransfersOk(w, ts) && p < |w.periods|
    ensures var fund := w.periods[p].fund;
      BaseSum(ts, FundAccounts(w, fund, kinds), NavPeriods(w, p), AllKinds)
      == BaseSum(ts, FundAccounts(w, fund, kinds), PeriodSet(PeriodsThrough(w, fund, w.periods[p].start)), AllKinds)
  {
    hide TransfersOk, BaseIn, Imbalance, PeriodsBelow;
    var fund := w.periods[p].fund;
    var a, own := FundAccounts(w, fund, kinds), PeriodSet(PeriodsThrough(w, fund, w.periods[p].start));
    forall i | 0 <= i < |ts|
      ensures BaseTerm(ts, ts[i], a, NavPeriods(w, p), AllKinds) == BaseTerm(ts, ts[i], a, own, AllKinds)
    {
      EntryAccounts(w, ts, i);
      if w.periods[ts[i].period].fund != fund {
        UntouchedIsZero(ts[i].entries, a);
      } else {
        OwnPeriod(w, p, ts[i].period);
      }
    }
    SumByCongruent(ts, t => BaseTerm(ts, t, a, NavPeriods(w, p), AllKinds), t => BaseTerm(ts, t, a, own, AllKinds));
  }

  lemma OwnPeriod(w: World, p: PeriodId, q: PeriodId)
    requires p < |w.periods| && q < |w.periods| && w.periods[q].fund == w.periods[p].fund
    ensures q in NavPeriods(w, p) <==> q in PeriodSet(PeriodsThrough(w, w.periods[p].fund, w.periods[p].start))
  {
    var qs := PeriodsThrough(w, w.periods[p].fund, w.periods[p].start);
    assert q in PeriodSet(qs) <==> q in qs;
  }

  /**
   * The closing balances of a fund's partners sum to its net asset value plus the general partner's balance, in
   * every ledger whose transfers are sound. So partners' capital equals NAV exactly when the general partner's
   * balance is zero.
   */
  lemma PartnersCapitalAndNav(w: World, ts: seq<Transfer>, p: PeriodId)
    requires WorldOk(w) && TransfersOk(w, ts) && p < |w.periods| && CommitmentsOf(w, w.periods[p].fund) != []
    ensures PartnersCapital(w, ts, p) == NavThrough(w, ts, p) + GpThrough(w, ts, p)
    ensures PartnersCapital(w, ts, p) == NavThrough(w, ts, p) <==> GpThrough(w, ts, p) == 0
  {
    hide WorldOk, TransfersOk, BaseSum, FundAccounts, NetAt, NavPeriods, PeriodsThrough, CommitmentsOf, MovementOf;
    var fund := w.periods[p].fund;
    var qs := PeriodsThrough(w, fund, w.periods[p].start);
    var assets, gp := FundAccounts(w, fund, {Cash, Investments}), FundAccounts(w, fund, {GpCapital});
    CapitalByPeriods(w, ts, p);
    var f := (q: PeriodId) => BaseSum(ts, assets, {q}, AllKinds);
    var g := (q: PeriodId) => BaseSum(ts, gp, {q}, AllKinds);
    var h := (q: PeriodId) => CapitalIn(w, ts, fund, q);
    forall k | 0 <= k < |qs| ensures h(qs[k]) == f(qs[k]) + g(qs[k]) {
      PartnersNetInPeriod(w, ts, fund, qs[k]);
    }
    SumByAdds(qs, f, g, h);
    ThroughIsDistinct(w, p);
    SumOverPeriods(ts, assets, qs, AllKinds);
    SumOverPeriods(ts, gp, qs, AllKinds);
    OwnPeriodsMatter(w, ts, p, {Cash, Investments});
    OwnPeriodsMatter(w, ts, p, {GpCapital});
  }

  function NetOver(w: World, ts: seq<Transfer>, fund: FundId, i: int, qs: seq<PeriodId>): int {
    SumBy(qs, (q: PeriodId) => NetAt(w, ts, fund, i, q))
  }

  /** The partners' net movements in one period, summed. */
  function CapitalIn(w: World, ts: seq<Transfer>, fund: FundId, q: PeriodId): int {
    SumBy(Range(|CommitmentsOf(w, fund)|), i => NetAt(w, ts, fund, i, q))
  }

  lemma {:induction false} SumByPartnerOrPeriod(w: World, ts: seq<Transfer>, fund: FundId, qs: seq<PeriodId>)
    ensures SumBy(Range(|CommitmentsOf(w, fund)|), i => NetOver(w, ts, fund, i, qs))
      == SumBy(qs, (q: PeriodId) => CapitalIn(w, ts, fund, q))
  {
    hide NetAt, CommitmentsOf;
    var partners := Range(|CommitmentsOf(w, fund)|);
    if qs == [] {
      SumByZero(partners, i => NetOver(w, ts, fund, i, qs));
    } else {
      var n := |qs| - 1;
      SumByPartnerOrPeriod(w, ts, fund, qs[..n]);
      SumByAdds(partners, i => NetOver(w, ts, fund, i, qs[..n]), i => NetAt(w, ts, fund, i, qs[n]),
                i => NetOver(w, ts, fund, i, qs));
    }
  }

  /** Summing the partners' closings is summing, period by period, the partners' net movements. */
  lemma CapitalByPeriods(w: World, ts: seq<Transfer>, p: PeriodId)
    requires WorldOk(w) && p < |w.periods|
    ensures var fund := w.periods[p].fund;
      PartnersCapital(w, ts, p)
      == SumBy(PeriodsThrough(w, fund, w.periods[p].start), (q: PeriodId) => CapitalIn(w, ts, fund, q))
  {
    hide WorldOk, MovementOf, PeriodsThrough, CommitmentsOf, StatementOf;
    var fund := w.periods[p].fund;
    var n, qs := |CommitmentsOf(w, fund)|, PeriodsThrough(w, fund, w.periods[p].start);
    forall i: int | 0 <= i < n ensures ClosingAt(w, ts, p, i) == NetOver(w, ts, fund, i, qs) {
      ClosingIsNetThrough(w, ts, p, i);
      SumByCongruent(qs, (q: PeriodId) => MovementOf(w, ts, fund, i, q).Net(),
                     (q: PeriodId) => NetAt(w, ts, fund, i, q));
    }
    SumByCongruent(Range(n), i => ClosingAt(w, ts, p, i), i => NetOver(w, ts, fund, i, qs));
    SumByPartnerOrPeriod(w, ts, fund, qs);
  }

  // ---- In every reachable state --------------------------------------------------------------------------

  lemma NothingForGp(w: World, ts: seq<Transfer>, fund: FundId, p: set<PeriodId>)
    requires OffGp(w, ts)
    ensures BaseSum(ts, FundAccounts(w, fund, {GpCapital}), p, AllKinds) == 0
  {
    var a := FundAccounts(w, fund, {GpCapital});
    forall i | 0 <= i < |ts| ensures BaseIn(ts[i].entries, a) == 0 {
      assert EntriesOffGp(w, ts[i].entries);
      UntouchedIsZero(ts[i].entries, a);
    }
    BalancedTransfersSumToZero(ts, a, p);
  }

  lemma ReachableParts(w: World, s: State)
    requires Reachable(w, s)
    ensures TransfersOk(w, s.books.transfers) && OffGp(w, s.books.transfers) && PointsBack(s.books.transfers)
    ensures ClosedPrefix(w, s.books.closed) && LedgerOk(w, s.books.transfers) && Linked(w, s.books)
  {
    hide TransfersOk, OffGp, UniqueKeys, UniqueReversals, CashNonNegative, Linked, Replayable, WithinCommitments;
    hide Exclusive, Serial, ProcsOk, Numbered, ClosedPrefix;
    TransfersPointBack(w, s.books.transfers);
  }

  /** Partners' capital equals net asset value, for every period, in every state of every interleaved run. */
  lemma PartnersCapitalEqualsNav(w: World, actions: seq<Action>, p: PeriodId)
    requires WorldOk(w) && BusinessActions(w, actions)
    requires p < |w.periods| && CommitmentsOf(w, w.periods[p].fund) != []
    ensures PartnersCapital(w, Run(w, actions).books.transfers, p) == NavThrough(w, Run(w, actions).books.transfers, p)
  {
    hide WorldOk, Run, Reachable, TransfersOk, OffGp, BaseSum, Linked, ClosedPrefix, LedgerOk, StatementOf;
    var ts := Run(w, actions).books.transfers;
    RunsAreReachable(w, actions);
    ReachableParts(w, Run(w, actions));
    PartnersCapitalAndNav(w, ts, p);
    NothingForGp(w, ts, w.periods[p].fund, NavPeriods(w, p));
  }

  /** Contributions are conserved in every state of every interleaved run. */
  lemma RunsConserveContributions(w: World, actions: seq<Action>, fund: FundId)
    requires WorldOk(w) && BusinessActions(w, actions)
    ensures var b := Run(w, actions).books;
      SumBy(LpAccountIds(w, fund, CommitmentsOf(w, fund)), (a: AccountId) => Contributed(w, b.transfers, a))
      == OutstandingCalls(b, fund)
  {
    hide WorldOk, Run, Reachable, TransfersOk, OffGp, Contributed, Linked, ClosedPrefix, LedgerOk, CommitmentsOf;
    RunsAreReachable(w, actions);
    ReachableParts(w, Run(w, actions));
    ContributionsConserved(w, Run(w, actions).books, fund);
  }

  /** The books balance at every grain in every state of every interleaved run. */
  lemma RunsBalance(w: World, actions: seq<Action>, period: PeriodId, fund: FundId)
    requires WorldOk(w) && BusinessActions(w, actions)
    ensures var ts := Run(w, actions).books.transfers;
      && UnbalancedTransfers(ts) == [] && PeriodImbalance(w, ts, period) == 0
      && FundImbalance(w, ts, fund) == 0 && TotalImbalance(w, ts) == 0
  {
    hide WorldOk, Run, Reachable, TransfersOk, OffGp, BaseSum, Linked, ClosedPrefix, LedgerOk, UnbalancedTransfers;
    RunsAreReachable(w, actions);
    ReachableParts(w, Run(w, actions));
    BooksBalanceAtEveryGrain(w, Run(w, actions).books.transfers, period, fund);
  }

  // ---- Closed reporting is frozen ------------------------------------------------------------------------

  /** A query over periods that no later transfer is posted into never changes. */
  lemma QueryFrozen(ts: seq<Transfer>, later: seq<Transfer>, a: set<AccountId>, p: set<PeriodId>,
                    k: set<TransferType>)
    requires PointsBack(ts) && |ts| <= |later| && later[..|ts|] == ts
    requires forall i :: |ts| <= i < |later| ==> BaseTerm(later, later[i], a, p, k) == 0
    ensures BaseSum(later, a, p, k) == BaseSum(ts, a, p, k)
  {
    hide BaseIn;
    var rest := later[|ts|..];
    assert later == ts + rest;
    var f := t => BaseTerm(later, t, a, p, k);
    SumByConcat(ts, rest, f);
    SumByZero(rest, f);
    forall i | 0 <= i < |ts| ensures f(ts[i]) == BaseTerm(ts, ts[i], a, p, k) {
      if ts[i].reverses.Some? {
        assert later[ts[i].reverses.value] == later[..|ts|][ts[i].reverses.value];
      }
    }
    SumByCongruent(ts, t => BaseTerm(ts, t, a, p, k), f);
  }

  lemma ClosedQueryFrozen(b: Books, later: Books, a: set<AccountId>, q: PeriodId, k: set<TransferType>)
    requires PointsBack(b.transfers) && Extends(b, later) && q in b.closed
    ensures BaseSum(later.transfers, a, {q}, k) == BaseSum(b.transfers, a, {q}, k)
  {
    hide BaseSum, BaseIn;
    QueryFrozen(b.transfers, later.transfers, a, {q}, k);
  }

  lemma ClosedMovementFrozen(w: World, b: Books, later: Books, fund: FundId, i: nat, q: PeriodId)
    requires PointsBack(b.transfers) && Extends(b, later) && q in b.closed && i < |CommitmentsOf(w, fund)|
    ensures MovementOf(w, later.transfers, fund, i, q) == MovementOf(w, b.transfers, fund, i, q)
  {
    hide BaseSum, Extends, ShareOf, CommitmentsOf, FundAccounts;
    var a := {LpAccount(w, fund, CommitmentsOf(w, fund)[i].lp)};
    ClosedQueryFrozen(b, later, a, q, {CapitalCall});
    ClosedQueryFrozen(b, later, a, q, {Distribution});
    ClosedQueryFrozen(b, later, a, q, OtherKinds);
    ClosedQueryFrozen(b, later, FundAccounts(w, fund, {GainLoss}), q, AllKinds);
    ClosedQueryFrozen(b, later, FundAccounts(w, fund, {FeeExpense}), q, AllKinds);
  }

  lemma EarlierAreClosed(w: World, closed: set<PeriodId>, p: PeriodId, q: PeriodId)
    requires WorldOk(w) && ClosedPrefix(w, closed) && p in closed && p < |w.periods| && q in PeriodsBefore(w, p)
    ensures q in closed
  {
    LaterStart(w, q, p);
    hide WorldOk;
    assert Earlier(w, q, p);
  }

  /** The statement of a closed period is the same in every later state. */
  lemma ClosedStatementFrozen(w: World, b: Books, later: Books, p: PeriodId, i: nat)
    requires WorldOk(w) && PointsBack(b.transfers) && ClosedPrefix(w, b.closed) && Extends(b, later)
    requires p in b.closed && p < |w.periods| && i < |CommitmentsOf(w, w.periods[p].fund)|
    ensures StatementOf(w, later.transfers, p, i) == StatementOf(w, b.transfers, p, i)
  {
    hide WorldOk, Extends, MovementOf, PeriodsBelow, CommitmentsOf, ClosedPrefix, PeriodsBefore;
    var fund := w.periods[p].fund;
    var qs := PeriodsBefore(w, p);
    ClosedMovementFrozen(w, b, later, fund, i, p);
    forall k | 0 <= k < |qs|
      ensures MovementOf(w, later.transfers, fund, i, qs[k]) == MovementOf(w, b.transfers, fund, i, qs[k])
    {
      assert qs[k] in qs;
      EarlierAreClosed(w, b.closed, p, qs[k]);
      ClosedMovementFrozen(w, b, later, fund, i, qs[k]);
    }
    SumByCongruent(qs, (q: PeriodId) => MovementOf(w, later.transfers, fund, i, q).Net(),
                   (q: PeriodId) => MovementOf(w, b.transfers, fund, i, q).Net());
    SumByCongruent(qs, (q: PeriodId) => MovementOf(w, later.transfers, fund, i, q).contributions,
                   (q: PeriodId) => MovementOf(w, b.transfers, fund, i, q).contributions);
  }

  /** Net asset value through a closed period is the same in every later state, so a snapshot never goes stale. */
  lemma ClosedNavFrozen(w: World, b: Books, later: Books, p: PeriodId)
    requires WorldOk(w) && TransfersOk(w, later.transfers) && PointsBack(b.transfers) && ClosedPrefix(w, b.closed)
    requires Extends(b, later) && p in b.closed && p < |w.periods|
    ensures NavThrough(w, later.transfers, p) == NavThrough(w, b.transfers, p)
  {
    hide WorldOk, TransfersOk, BaseIn, ClosedPrefix, BaseSum, Imbalance;
    var fund := w.periods[p].fund;
    var a := FundAccounts(w, fund, {Cash, Investments});
    forall i | |b.transfers| <= i < |later.transfers|
      ensures BaseTerm(later.transfers, later.transfers[i], a, NavPeriods(w, p), AllKinds) == 0
    {
      LaterTransferOffNav(w, b, later, p, i);
    }
    QueryFrozen(b.transfers, later.transfers, a, NavPeriods(w, p), AllKinds);
  }

  lemma LaterTransferOffNav(w: World, b: Books, later: Books, p: PeriodId, i: nat)
    requires WorldOk(w) && TransfersOk(w, later.transfers) && ClosedPrefix(w, b.closed) && Extends(b, later)
    requires p in b.closed && p < |w.periods| && |b.transfers| <= i < |later.transfers|
    ensures BaseTerm(later.transfers, later.transfers[i], FundAccounts(w, w.periods[p].fund, {Cash, Investments}),
                     NavPeriods(w, p), AllKinds) == 0
  {
    hide WorldOk, TransfersOk, BaseIn, Imbalance;
    var t := later.transfers[i];
    var a := FundAccounts(w, w.periods[p].fund, {Cash, Investments});
    EntryAccounts(w, later.transfers, i);
    if w.periods[t.period].fund != w.periods[p].fund {
      UntouchedIsZero(t.entries, a);
    } else if t.period in NavPeriods(w, p) {
      NavPeriodClosed(w, b.closed, p, t.period);
    }
  }

  lemma NavPeriodClosed(w: World, closed: set<PeriodId>, p: PeriodId, q: PeriodId)
    requires WorldOk(w) && ClosedPrefix(w, closed) && p in closed && p < |w.periods| && q < |w.periods|
    requires w.periods[q].fund == w.periods[p].fund && w.periods[q].start <= w.periods[p].start
    ensures q in closed
  {
    if q < p {
      LaterStart(w, q, p);
      assert Earlier(w, q, p);
    } else if p < q {
      LaterStart(w, p, q);
    }
  }

  /**
   * Closed reporting is frozen: once a period's close has committed, each partner's statement for it and the net
   * asset value through it keep their values in every later state of any interleaving.
   */
  lemma ClosedReportingIsFrozen(w: World, actions: seq<Action>, n: nat, p: PeriodId, i: nat)
    requires WorldOk(w) && BusinessActions(w, actions) && n <= |actions|
    requires p in Run(w, actions[..n]).books.closed
    requires p < |w.periods| && i < |CommitmentsOf(w, w.periods[p].fund)|
    ensures var b, later := Run(w, actions[..n]).books, Run(w, actions).books;
      && StatementOf(w, later.transfers, p, i) == StatementOf(w, b.transfers, p, i)
      && NavThrough(w, later.transfers, p) == NavThrough(w, b.transfers, p)
  {
    hide WorldOk, Run, Reachable, Extends, TransfersOk, OffGp, PointsBack, ClosedPrefix, StatementOf, CommitmentsOf;
    hide BaseSum, LedgerOk, Linked, Business;
    RunsAreReachable(w, actions[..n]);
    RunsAreReachable(w, actions);
    ReachableParts(w, Run(w, actions[..n]));
    ReachableParts(w, Run(w, actions));
    ClosingIsFinal(w, actions, n);
    ClosedStatementFrozen(w, Run(w, actions[..n]).books, Run(w, actions).books, p, i);
    ClosedNavFrozen(w, Run(w, actions[..n]).books, Run(w, actions).books, p);
  }

  // ---- Commitments on statements -------------------------------------------------------------------------

  predicate IsLast(w: World, p: PeriodId)
    requires p < |w.periods|
  {
    forall q: nat :: p < q < |w.periods| ==> w.periods[q].fund != w.periods[p].fund
  }

  lemma ContributionsBefore(w: World, ts: seq<Transfer>, p: PeriodId, i: nat, a: AccountId)
    requires p < |w.periods| && i < |CommitmentsOf(w, w.periods[p].fund)|
    requires a == LpAccount(w, w.periods[p].fund, CommitmentsOf(w, w.periods[p].fund)[i].lp)
    ensures StatementOf(w, ts, p, i).contributedToDate
      == -SumBy(PeriodsBefore(w, p) + [p], (q: PeriodId) => BaseSum(ts, {a}, {q}, {CapitalCall}))
  {
    hide BaseSum, PeriodsBefore, FundTotal, ShareOf, CommitmentsOf, LpAccount;
    var fund := w.periods[p].fund;
    var f := (q: PeriodId) => BaseSum(ts, {a}, {q}, {CapitalCall});
    SumByAppend(PeriodsBefore(w, p), p, f);
    SumByScales(PeriodsBefore(w, p), -1, f, (q: PeriodId) => MovementOf(w, ts, fund, i, q).contributions);
  }

  /** Over all of a fund's periods, a statement's contributions to date are the partner's net contributions. */
  lemma LastStatementContributions(w: World, ts: seq<Transfer>, p: PeriodId, i: nat)
    requires WorldOk(w) && TransfersOk(w, ts) && p < |w.periods| && IsLast(w, p)
    requires i < |CommitmentsOf(w, w.periods[p].fund)|
    ensures StatementOf(w, ts, p, i).contributedToDate
      == Contributed(w, ts, LpAccount(w, w.periods[p].fund, CommitmentsOf(w, w.periods[p].fund)[i].lp))
  {
    hide WorldOk, TransfersOk, BaseSum, PeriodsBefore, PeriodsThrough, StatementOf, PeriodSet, CommitmentsOf, LpAccount;
    var c := CommitmentsOf(w, w.periods[p].fund)[i];
    var a := LpAccount(w, w.periods[p].fund, c.lp);
    ContributionsBefore(w, ts, p, i, a);
    ThroughEndsWithPeriod(w, p);
    ThroughIsDistinct(w, p);
    SumOverPeriods(ts, {a}, PeriodsBefore(w, p) + [p], {CapitalCall});
    assert c in CommitmentsOf(w, w.periods[p].fund);
    PartnerAccount(w, w.periods[p].fund, c);
    LastCoversAll(w, ts, p, a);
  }

  lemma LastCoversAll(w: World, ts: seq<Transfer>, p: PeriodId, a: AccountId)
    requires WorldOk(w) && TransfersOk(w, ts) && p < |w.periods| && IsLast(w, p)
    requires a < |w.accounts| && w.accounts[a].fund == w.periods[p].fund
    ensures BaseSum(ts, {a}, AllPeriods(w), {CapitalCall})
      == BaseSum(ts, {a}, PeriodSet(PeriodsBefore(w, p) + [p]), {CapitalCall})
  {
    hide WorldOk, TransfersOk, BaseIn, Imbalance, PeriodsBelow;
    var own := PeriodSet(PeriodsBefore(w, p) + [p]);
    forall n | 0 <= n < |ts|
      ensures BaseTerm(ts, ts[n], {a}, AllPeriods(w), {CapitalCall}) == BaseTerm(ts, ts[n], {a}, own, {CapitalCall})
    {
      EntryAccounts(w, ts, n);
      if w.periods[ts[n].period].fund != w.periods[p].fund {
        UntouchedIsZero(ts[n].entries, {a});
      } else {
        LastCovers(w, p, ts[n].period);
      }
    }
    SumByCongruent(ts, t => BaseTerm(ts, t, {a}, AllPeriods(w), {CapitalCall}),
                   t => BaseTerm(ts, t, {a}, own, {CapitalCall}));
  }

  lemma LastCovers(w: World, p: PeriodId, q: PeriodId)
    requires WorldOk(w) && p < |w.periods| && q < |w.periods| && IsLast(w, p)
    requires w.periods[q].fund == w.periods[p].fund
    ensures q in PeriodSet(PeriodsBefore(w, p) + [p])
  {
    var qs := PeriodsBefore(w, p) + [p];
    if q < p {
      LaterStart(w, q, p);
    }
    hide WorldOk;
    assert q in qs;
    var k :| 0 <= k < |qs| && qs[k] == q;
  }

  /** Net asset value through a fund's last period is its net asset value. */
  lemma NavNowIsLastNav(w: World, ts: seq<Transfer>, p: PeriodId)
    requires WorldOk(w) && TransfersOk(w, ts) && p < |w.periods| && IsLast(w, p)
    ensures NavThrough(w, ts, p) == NavNow(w, ts, w.periods[p].fund)
  {
    hide WorldOk, TransfersOk, BaseIn, Imbalance;
    var a := FundAccounts(w, w.periods[p].fund, {Cash, Investments});
    forall n | 0 <= n < |ts|
      ensures BaseTerm(ts, ts[n], a, NavPeriods(w, p), AllKinds) == BaseTerm(ts, ts[n], a, AllPeriods(w), AllKinds)
    {
      EntryAccounts(w, ts, n);
      var q := ts[n].period;
      if w.periods[q].fund != w.periods[p].fund {
        UntouchedIsZero(ts[n].entries, a);
      } else if q < p {
        LaterStart(w, q, p);
      }
    }
    SumByCongruent(ts, t => BaseTerm(ts, t, a, NavPeriods(w, p), AllKinds),
                   t => BaseTerm(ts, t, a, AllPeriods(w), AllKinds));
  }

  /**
   * In every state of every run, the statement for a fund's last period shows an unfunded commitment between zero
   * and the commitment.
   */
  lemma LastUnfundedInRange(w: World, actions: seq<Action>, p: PeriodId, i: nat)
    requires WorldOk(w) && BusinessActions(w, actions) && p < |w.periods| && IsLast(w, p)
    requires i < |CommitmentsOf(w, w.periods[p].fund)|
    ensures var s := StatementOf(w, Run(w, actions).books.transfers, p, i);
      0 <= s.unfunded <= s.commitment
  {
    hide WorldOk, Run, Reachable, TransfersOk, OffGp, BaseSum, Linked, ClosedPrefix, LedgerOk, MovementOf, Business;
    var fund := w.periods[p].fund;
    var c := CommitmentsOf(w, fund)[i];
    RunsAreReachable(w, actions);
    ReachableParts(w, Run(w, actions));
    LastStatementContributions(w, Run(w, actions).books.transfers, p, i);
    assert c in CommitmentsOf(w, fund);
    var k :| 0 <= k < |w.commitments| && w.commitments[k] == c;
    NoCommitmentExceeded(w, actions, k);
  }
}
