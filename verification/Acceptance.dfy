/**
 * Exactly when the ledger accepts a capital call or a distribution, and what it tells whoever reverses a transfer
 * twice or reuses a key (operations/services.py, ledger/services.py, ledger/idempotency.py).
 */
module Acceptance {
  import opened Results
  import opened Sums
  import opened Sorting
  import opened Types
  import opened Chart
  import opened Queries
  import opened Posting
  import opened Operations
  import opened Fingerprints
  import opened Invariants
  import opened Capital
  import opened Ledgers
  import opened NavEffects
  import opened Statements
  import opened Reconciliation
  import Allocation
  import Pricing

  // ---- The legs of a plan --------------------------------------------------------------------------------

  function NetOf(legs: seq<Leg>): int { SumBy(legs, (l: Leg) => Sign(l.direction) * l.amount) }

  lemma {:induction false} ShareLegsNet(w: World, fund: FundId, rows: seq<ShareRow>, call: bool)
    ensures NetOf(ShareLegs(w, fund, rows, call)) == 0
  {
    if rows != [] {
      var n := |rows| - 1;
      var f := (l: Leg) => Sign(l.direction) * l.amount;
      var pair := LegPair(w, fund, rows[n], call);
      ShareLegsNet(w, fund, rows[..n], call);
      SumByConcat(ShareLegs(w, fund, rows[..n], call), pair, f);
      if pair != [] {
        assert pair == ([] + [pair[0]]) + [pair[1]];
        SumByAppend([], pair[0], f);
        SumByAppend([] + [pair[0]], pair[1], f);
      }
    }
  }

  function CashSide(call: bool): Direction { if call then Debit else Credit }

  /** A leg of positive amount, on cash on one side or on a partner's account on the other. */
  predicate Sided(w: World, fund: FundId, rows: seq<ShareRow>, call: bool, l: Leg) {
    && l.amount > 0 && l.base.None?
    && (l.direction == CashSide(call) ==> l.account == CashAccount(w, fund))
    && (l.direction == CashSide(call) || l.direction == CashSide(!call))
    && (l.direction == CashSide(!call) ==> exists row :: row in rows && l.account == LpAccount(w, fund, row.lp))
  }

  predicate HasSide(legs: seq<Leg>, d: Direction) { exists i :: 0 <= i < |legs| && legs[i].direction == d }

  lemma {:induction false} ShareLegsSided(w: World, fund: FundId, rows: seq<ShareRow>, call: bool)
    requires forall row :: row in rows ==> row.share >= 0
    ensures forall l :: l in ShareLegs(w, fund, rows, call) ==> Sided(w, fund, rows, call, l)
    ensures (exists row :: row in rows && row.share > 0) ==>
      HasSide(ShareLegs(w, fund, rows, call), Debit) && HasSide(ShareLegs(w, fund, rows, call), Credit)
  {
    hide CashAccount, LpAccount;
    if rows != [] {
      var n := |rows| - 1;
      var front, pair := ShareLegs(w, fund, rows[..n], call), LegPair(w, fund, rows[n], call);
      assert rows == rows[..n] + [rows[n]];
      ShareLegsSided(w, fund, rows[..n], call);
      forall l | l in front + pair ensures Sided(w, fund, rows, call, l) {
        if l in front {
          assert Sided(w, fund, rows[..n], call, l);
        } else {
          assert rows[n] in rows && rows[n].share > 0;
        }
      }
      SideOfEither(front, pair, Debit);
      SideOfEither(front, pair, Credit);
      if rows[n].share > 0 {
        assert pair[0].direction != pair[1].direction;
        assert HasSide(pair, pair[0].direction) && HasSide(pair, pair[1].direction);
      }
    }
  }

  lemma SideOfEither(a: seq<Leg>, b: seq<Leg>, d: Direction)
    ensures HasSide(a, d) || HasSide(b, d) ==> HasSide(a + b, d)
  {
    if i :| 0 <= i < |a| && a[i].direction == d {
      assert (a + b)[i].direction == d;
    } else if i :| 0 <= i < |b| && b[i].direction == d {
      assert (a + b)[|a| + i].direction == d;
    }
  }

  lemma {:induction false} SomePositive(s: seq<int>)
    requires Sum(s) > 0
    ensures exists i :: 0 <= i < |s| && s[i] > 0
  {
    var n := |s| - 1;
    if s[n] <= 0 {
      SomePositive(s[..n]);
      var i :| 0 <= i < n && s[..n][i] > 0;
      assert s[i] > 0;
    }
  }

  /** The legs of a plan with a positive total are valid, known and in the plan's fund. */
  lemma PlanLegsValid(w: World, fund: FundId, total: int, on: Date, call: bool)
    requires WorldOk(w) && PlanFor(w, fund, total, on, call).Ok? && total > 0
    ensures var p := PlanFor(w, fund, total, on, call).value;
      && ValidLegs(p.legs) && Pricing.KnownAccounts(w, p.legs) && SameFund(w, p.period, p.legs)
      && NetOf(p.legs) == 0
      && (forall i :: 0 <= i < |p.legs| ==>
            if p.legs[i].direction == CashSide(call) then p.legs[i].account == CashAccount(w, fund)
            else w.accounts[p.legs[i].account].kind == LpCapital)
  {
    hide PlanFor, ShareLegs, CommitmentsOf, Sort, WorldOk, CashAccount, LpAccount, Sided, PeriodFor;
    var cs := CommitmentsOf(w, fund);
    var p := PlanFor(w, fund, total, on, call).value;
    var rows := ShareRows(cs, p.shares);
    var sorted := Sort(rows, ByLp);
    PlanShares(w, fund, total, on, call);
    PlanParts(w, fund, total, on, call);
    ByLpIsTotalOrder();
    SortCorrect(rows, ByLp);
    SameRows(sorted, rows);
    ShareLegsSided(w, fund, sorted, call);
    ShareLegsNet(w, fund, sorted, call);
    SomePositive(p.shares);
    var k :| 0 <= k < |p.shares| && p.shares[k] > 0;
    assert rows[k] in rows && rows[k] in sorted;
    forall l | l in p.legs
      ensures l.amount > 0 && !l.direction.Unknown?
      ensures l.account < |w.accounts| && w.accounts[l.account].fund == fund
      ensures if l.direction == CashSide(call) then l.account == CashAccount(w, fund)
              else w.accounts[l.account].kind == LpCapital
    {
      PlanLegAccount(w, fund, cs, rows, sorted, call, l);
    }
  }

  /** The partners that get legs, in the order in which they get them. */
  function Paying(rows: seq<ShareRow>): seq<ShareRow> {
    if rows == [] then []
    else Paying(rows[..|rows| - 1]) + if rows[|rows| - 1].share == 0 then [] else [rows[|rows| - 1]]
  }

  lemma {:induction false} PayingLegs(w: World, fund: FundId, rows: seq<ShareRow>, call: bool)
    ensures |ShareLegs(w, fund, rows, call)| == 2 * |Paying(rows)|
    ensures forall k :: 0 <= k < |Paying(rows)| ==>
      ShareLegs(w, fund, rows, call)[2 * k..2 * k + 2] == LegPair(w, fund, Paying(rows)[k], call)
  {
    hide LpAccount, CashAccount;
    if rows != [] {
      var n := |rows| - 1;
      PayingLegs(w, fund, rows[..n], call);
      var front, pair := ShareLegs(w, fund, rows[..n], call), LegPair(w, fund, rows[n], call);
      forall k | 0 <= k < |Paying(rows)|
        ensures (front + pair)[2 * k..2 * k + 2] == LegPair(w, fund, Paying(rows)[k], call)
      {
        if k < |Paying(rows[..n])| {
          assert (front + pair)[2 * k..2 * k + 2] == front[2 * k..2 * k + 2];
        } else {
          assert (front + pair)[2 * k..2 * k + 2] == pair;
        }
      }
    }
  }

  lemma {:induction false} PayingRows(rows: seq<ShareRow>, row: ShareRow)
    ensures row in Paying(rows) <==> row in rows && row.share != 0
  {
    if rows != [] {
      var n := |rows| - 1;
      assert rows == rows[..n] + [rows[n]];
      PayingRows(rows[..n], row);
    }
  }

  lemma {:induction false} PayingSorted(rows: seq<ShareRow>)
    requires Sorted(rows, ByLp)
    ensures Sorted(Paying(rows), ByLp)
  {
    if rows != [] {
      var n := |rows| - 1;
      PayingSorted(rows[..n]);
      forall i | 0 <= i < |Paying(rows[..n])| ensures ByLp(Paying(rows[..n])[i], rows[n]) {
        PayingRows(rows[..n], Paying(rows[..n])[i]);
      }
    }
  }

  /**
   * A plan's legs, two by two: a debit and a credit of one partner's share, cash debited for a call and credited for
   * a distribution; the partners are those with a nonzero share, by the text of their ids.
   */
  lemma PlanLegsInOrder(w: World, fund: FundId, total: int, on: Date, call: bool) returns (paying: seq<ShareRow>)
    requires PlanFor(w, fund, total, on, call).Ok?
    ensures var cs, shares := CommitmentsOf(w, fund), PlanFor(w, fund, total, on, call).value.shares;
      forall row :: row in paying <==>
        row.share != 0 && exists i :: 0 <= i < |cs| && row == ShareRow(cs[i].lp, shares[i])
    ensures forall i, j :: 0 <= i < j < |paying| ==> StrLe(paying[i].lp, paying[j].lp)
    ensures var legs, cash := PlanFor(w, fund, total, on, call).value.legs, CashAccount(w, fund);
      && |legs| == 2 * |paying|
      && forall k :: 0 <= k < |paying| ==>
           var capital := LpAccount(w, fund, paying[k].lp);
           && legs[2 * k] == Leg(if call then cash else capital, Debit, paying[k].share, None, None)
           && legs[2 * k + 1] == Leg(if call then capital else cash, Credit, paying[k].share, None, None)
  {
    hide PlanFor, CommitmentsOf, Sort, LpAccount, CashAccount;
    var p := PlanFor(w, fund, total, on, call).value;
    var rows := ShareRows(CommitmentsOf(w, fund), p.shares);
    var sorted := Sort(rows, ByLp);
    paying := Paying(sorted);
    PlanParts(w, fund, total, on, call);
    ByLpIsTotalOrder();
    SortCorrect(rows, ByLp);
    SameRows(sorted, rows);
    PayingLegs(w, fund, sorted, call);
    PayingSorted(sorted);
    forall row ensures row in paying <==> row in rows && row.share != 0 {
      PayingRows(sorted, row);
    }
    forall i, j | 0 <= i < j < |paying| ensures StrLe(paying[i].lp, paying[j].lp) {
      assert ByLp(paying[i], paying[j]);
    }
    hide ShareLegs, Paying;
    forall k | 0 <= k < |paying|
      ensures var capital := LpAccount(w, fund, paying[k].lp);
        && p.legs[2 * k] == Leg(if call then CashAccount(w, fund) else capital, Debit, paying[k].share, None, None)
        && p.legs[2 * k + 1] == Leg(if call then capital else CashAccount(w, fund), Credit, paying[k].share, None, None)
    {
      assert paying[k] in paying;
      assert p.legs[2 * k..2 * k + 2] == LegPair(w, fund, paying[k], call);
      assert p.legs[2 * k] == p.legs[2 * k..2 * k + 2][0] && p.legs[2 * k + 1] == p.legs[2 * k..2 * k + 2][1];
    }
  }

  lemma SameRows(a: seq<ShareRow>, b: seq<ShareRow>)
    requires multiset(a) == multiset(b)
    ensures forall row :: row in a <==> row in b
  {
    forall row ensures row in a <==> row in b {
      assert row in a <==> row in multiset(a);
    }
  }

  lemma PlanLegAccount(w: World, fund: FundId, cs: seq<Commitment>, rows: seq<ShareRow>, sorted: seq<ShareRow>,
                       call: bool, l: Leg)
    requires WorldOk(w) && cs == CommitmentsOf(w, fund) && |rows| == |cs| && cs != []
    requires forall i :: 0 <= i < |cs| ==> rows[i].lp == cs[i].lp
    requires (forall row :: row in sorted <==> row in rows) && Sided(w, fund, sorted, call, l)
    ensures l.amount > 0 && !l.direction.Unknown?
    ensures l.account < |w.accounts| && w.accounts[l.account].fund == fund
    ensures if l.direction == CashSide(call) then l.account == CashAccount(w, fund)
            else w.accounts[l.account].kind == LpCapital
  {
    hide WorldOk, CommitmentsOf, LpAccount, CashAccount;
    if l.direction == CashSide(call) {
      assert cs[0] in cs;
      PartnerAccount(w, fund, cs[0]);
    } else {
      var row :| row in sorted && l.account == LpAccount(w, fund, row.lp);
      var i :| 0 <= i < |rows| && rows[i] == row;
      assert cs[i] in cs;
      PartnerAccount(w, fund, cs[i]);
    }
  }

  // ---- The entries of a plan -----------------------------------------------------------------------------

  lemma {:induction false} EntriesNet(entries: seq<Entry>, legs: seq<Leg>)
    requires |entries| == |legs|
    requires forall i :: 0 <= i < |legs| ==> SignedBase(entries[i]) == Sign(legs[i].direction) * legs[i].amount
    ensures Imbalance(entries) == NetOf(legs)
  {
    if legs != [] {
      var n := |legs| - 1;
      EntriesNet(entries[..n], legs[..n]);
    }
  }

  predicate PlanEntry(w: World, fund: FundId, call: bool, e: Entry) {
    && e.amount == e.base > 0 && e.fxRate.None?
    && if e.direction == CashSide(call) then e.account == CashAccount(w, fund)
       else e.account < |w.accounts| && w.accounts[e.account].kind == LpCapital
  }

  lemma PreparedFromParts(w: World, d: Draft, entries: seq<Entry>)
    requires d.period < |w.periods| && ValidLegs(d.legs) && Pricing.KnownAccounts(w, d.legs)
    requires SameFund(w, d.period, d.legs) && Imbalance(entries) == 0
    requires Pricing.Price(w, BaseCurrency(w, w.periods[d.period].fund), d.fxDate, d.legs) == Ok(entries)
    ensures Prepare(w, true, d) == Ok(entries)
  {
  }

  function FaceValue(w: World, fund: FundId, l: Leg): Entry {
    Entry(l.account, l.direction, l.amount, BaseCurrency(w, fund), None, l.amount)
  }

  /** Base-currency legs that net to zero are priced at face value and balance. */
  lemma BaseLegsPriced(w: World, fund: FundId, on: Date, legs: seq<Leg>)
    requires ValidLegs(legs) && Pricing.KnownAccounts(w, legs) && BaseLegs(w, fund, legs) && NetOf(legs) == 0
    ensures var r := Pricing.Price(w, BaseCurrency(w, fund), on, legs);
      && r.Ok? && |r.value| == |legs| && Imbalance(r.value) == 0
      && forall i :: 0 <= i < |legs| ==> r.value[i] == FaceValue(w, fund, legs[i])
  {
    hide Pricing.Price, Imbalance, NetOf;
    BaseLegsAtFaceValue(w, fund, on, legs);
    EntriesNet(Pricing.Price(w, BaseCurrency(w, fund), on, legs).value, legs);
    forall i | 0 <= i < |legs|
      ensures Pricing.Price(w, BaseCurrency(w, fund), on, legs).value[i] == FaceValue(w, fund, legs[i])
    {
      BaseLegAtFaceValue(w, BaseCurrency(w, fund), on, legs, i);
    }
  }

  lemma SidedAmounts(w: World, fund: FundId, call: bool, legs: seq<Leg>, i: nat)
    requires i < |legs| && ValidLegs(legs) && Pricing.KnownAccounts(w, legs)
    requires if legs[i].direction == CashSide(call) then legs[i].account == CashAccount(w, fund)
             else w.accounts[legs[i].account].kind == LpCapital
    ensures PlanEntry(w, fund, call, FaceValue(w, fund, legs[i]))
  {
    hide CashAccount;
  }

  /** A plan with a positive total, posted into an open period, passes every check that needs no balance. */
  lemma PlanPrepares(w: World, fund: FundId, total: int, on: Date, call: bool, d: Draft)
    requires WorldOk(w) && PlanFor(w, fund, total, on, call).Ok? && total > 0
    requires d.legs == PlanFor(w, fund, total, on, call).value.legs
    requires d.period == PlanFor(w, fund, total, on, call).value.period
    ensures Prepare(w, true, d).Ok? && PositiveRows(Prepare(w, true, d).value)
    ensures forall e :: e in Prepare(w, true, d).value ==> PlanEntry(w, fund, call, e)
  {
    hide WorldOk, PlanFor, Pricing.Price, SameFund, CashAccount, Prepare, Imbalance, NetOf, ValidLegs, BaseLegs;
    hide PlanEntry;
    PlanLegsValid(w, fund, total, on, call);
    PlanLegsShape(w, fund, total, on, call);
    PlanParts(w, fund, total, on, call);
    BaseLegsPriced(w, fund, d.fxDate, d.legs);
    var entries := Pricing.Price(w, BaseCurrency(w, fund), d.fxDate, d.legs).value;
    PreparedFromParts(w, d, entries);
    forall i | 0 <= i < |entries| ensures PlanEntry(w, fund, call, entries[i]) {
      SidedAmounts(w, fund, call, d.legs, i);
    }
    PlanEntriesPositive(w, fund, call, entries);
  }

  lemma PlanEntriesPositive(w: World, fund: FundId, call: bool, entries: seq<Entry>)
    requires forall i :: 0 <= i < |entries| ==> PlanEntry(w, fund, call, entries[i])
    ensures PositiveRows(entries)
  {
    hide CashAccount;
  }

  lemma NativeIsBase(entries: seq<Entry>, a: AccountId, b: set<AccountId>)
    requires forall e :: e in entries ==> e.amount == e.base && (e.account == a <==> e.account in b)
    ensures NativeOn(entries, a) == BaseIn(entries, b)
  {
    SumByCongruent(entries, (e: Entry) => if e.account == a then SignedAmount(e) else 0,
                   (e: Entry) => if e.account in b then SignedBase(e) else 0);
  }

  /** A call never overdraws anybody; a distribution overdraws exactly when cash holds less than its total. */
  lemma PlanAffordableIff(w: World, ts: seq<Transfer>, fund: FundId, total: int, on: Date, call: bool, d: Draft)
    requires WorldOk(w) && PlanFor(w, fund, total, on, call).Ok? && total > 0
    requires d.legs == PlanFor(w, fund, total, on, call).value.legs
    requires d.period == PlanFor(w, fund, total, on, call).value.period
    ensures Prepare(w, true, d).Ok?
    ensures Sufficient(w, ts, d, Prepare(w, true, d).value) <==>
      call || NativeBalance(ts, CashAccount(w, fund)) >= total
  {
    hide WorldOk, PlanFor, Prepare, BaseIn, NativeOn, NativeBalance, CashAccount, LockOrder, PositiveRows, Sufficient;
    hide CommitmentsOf;
    PlanPrepares(w, fund, total, on, call, d);
    PlanBooksAssets(w, fund, total, on, call, d);
    PlanShares(w, fund, total, on, call);
    CashIsCash(w, fund);
    var entries, cash := Prepare(w, true, d).value, CashAccount(w, fund);
    SufficientIff(w, ts, true, d);
    NativeIsBase(entries, cash, Assets(w, fund));
    forall a: AccountId | a != cash ensures Affordable(w, ts, entries, a) {
      if a < |w.accounts| && w.accounts[a].kind == Cash {
        UntouchedIsAffordable(w, ts, entries, a);
      }
    }
    assert Affordable(w, ts, entries, cash) <==> call || NativeBalance(ts, cash) >= total;
  }

  lemma CashIsCash(w: World, fund: FundId)
    requires WorldOk(w) && CommitmentsOf(w, fund) != []
    ensures var cash := CashAccount(w, fund);
      cash < |w.accounts| && w.accounts[cash].kind == Cash && cash in Assets(w, fund)
  {
    assert CommitmentsOf(w, fund)[0] in CommitmentsOf(w, fund);
    PartnerAccount(w, fund, CommitmentsOf(w, fund)[0]);
  }

  // ---- Calls and distributions ---------------------------------------------------------------------------

  predicate FreshKey(b: Books, key: string) { key != "" && KeyIndex(b.transfers, key) == |b.transfers| }

  /** A period of the fund covers a date. */
  predicate Covered(w: World, fund: FundId, on: Date) {
    exists p :: 0 <= p < |w.periods| && w.periods[p].fund == fund && w.periods[p].start <= on <= w.periods[p].end
  }

  /** A total can be split for a fund on a date: known fund, period, partners, whole pennies. */
  predicate CanSplit(w: World, fund: FundId, total: int, on: Date) {
    fund in w.funds && Covered(w, fund, on) && CommitmentsOf(w, fund) != [] && total % 100 == 0
  }

  /** The partners' shares of a total in whole pennies; none when it cannot be split. */
  function SharesOf(w: World, fund: FundId, total: int): seq<int> {
    var r := Allocation.Allocated(total, Items(CommitmentsOf(w, fund)), PENNY);
    if r.Ok? then r.value else []
  }

  /** The shares are whole pennies, add up to the total, and are each within a penny of the exact pro-rata part. */
  lemma SharesAreProRata(w: World, fund: FundId, total: int, i: nat)
    requires WorldOk(w) && total % 100 == 0 && i < |CommitmentsOf(w, fund)|
    ensures |SharesOf(w, fund, total)| == |CommitmentsOf(w, fund)| && Sum(SharesOf(w, fund, total)) == total
    ensures var share, own := SharesOf(w, fund, total)[i], CommitmentsOf(w, fund)[i].committed;
      var all := FundCommitted(w, fund);
      share % 100 == 0 && -100 * all < share * all - total * own < 100 * all
  {
    hide WorldOk, Allocation.Allocated, RowsOf;
    var items := Items(CommitmentsOf(w, fund));
    CommitmentsUsable(w, fund);
    RowsWeight(w.commitments, fund);
    Allocation.SharesSumToTotal(total, items, PENNY);
    Allocation.WithinOneQuantum(total, items, PENNY, i);
    Allocation.SharesAreWhole(total, items, PENNY, i);
  }

  /** Of two partners who committed the same, the one whose id's text comes first never takes the smaller part. */
  lemma EqualPartnersByText(w: World, fund: FundId, total: int, i: nat, j: nat)
    requires WorldOk(w) && total % 100 == 0 && i < |CommitmentsOf(w, fund)| && j < |CommitmentsOf(w, fund)|
    requires var a, b := CommitmentsOf(w, fund)[i], CommitmentsOf(w, fund)[j];
      a.committed == b.committed && a.lp != b.lp && StrLe(a.lp, b.lp)
    ensures |SharesOf(w, fund, total)| == |CommitmentsOf(w, fund)|
    ensures var shares := SharesOf(w, fund, total);
      if total < 0 then shares[i] <= shares[j] else shares[i] >= shares[j]
  {
    hide WorldOk, Allocation.Allocated, RowsOf;
    var items := Items(CommitmentsOf(w, fund));
    CommitmentsUsable(w, fund);
    Allocation.EqualWeightsSmallerText(total, items, PENNY, i, j);
    Allocation.SharesKeepSign(total, items, PENNY, i);
    Allocation.SharesKeepSign(total, items, PENNY, j);
  }

  lemma PeriodFound(w: World, fund: FundId, on: Date)
    ensures PeriodFor(w, fund, on) <= |w.periods|
    ensures PeriodFor(w, fund, on) < |w.periods| <==> Covered(w, fund, on)
    ensures PeriodFor(w, fund, on) < |w.periods| ==>
      var p := w.periods[PeriodFor(w, fund, on)];
      p.fund == fund && p.start <= on <= p.end
    ensures forall q: nat :: q < PeriodFor(w, fund, on) && q < |w.periods| && w.periods[q].fund == fund ==>
      !(w.periods[q].start <= on <= w.periods[q].end)
  {
  }

  /** A plan can be made exactly when the total can be split. */
  lemma PlanMadeIff(w: World, fund: FundId, total: int, on: Date, call: bool)
    requires WorldOk(w)
    ensures var plan := PlanFor(w, fund, total, on, call);
      plan.Ok? <==> CanSplit(w, fund, total, on)
    ensures var plan := PlanFor(w, fund, total, on, call);
      plan.Ok? ==> plan.value.period == PeriodFor(w, fund, on) && plan.value.shares == SharesOf(w, fund, total)
  {
    hide WorldOk, Allocation.Allocated, Allocation.Usable, CommitmentsOf, PeriodFor, Covered, ShareLegs;
    PeriodFound(w, fund, on);
    Allocation.SucceedsIff(total, Items(CommitmentsOf(w, fund)), PENNY);
    if CommitmentsOf(w, fund) != [] {
      CommitmentsUsable(w, fund);
    } else {
      NobodyToSplitFor(w, fund);
    }
  }

  lemma NobodyToSplitFor(w: World, fund: FundId)
    requires CommitmentsOf(w, fund) == []
    ensures !Allocation.Usable(Items(CommitmentsOf(w, fund)))
  {
    assert Items(CommitmentsOf(w, fund)) == [];
  }

  lemma CallAcceptedWithPlan(w: World, b: Books, req: Request)
    requires WorldOk(w) && req.Call?
    ensures JustCreated(w, b, req) <==>
      var plan := PlanFor(w, req.fund, req.total, req.notice, true);
      && FreshKey(b, req.key) && plan.Ok? && plan.value.period !in b.closed
      && CommitmentsAllow(w, b.transfers, req.fund, plan.value.shares)
      && 0 < req.total && req.notice <= req.due
  {
    var plan := PlanFor(w, req.fund, req.total, req.notice, true);
    var d := DraftOf(w, req, None);
    if JustCreated(w, b, req) {
      AcceptedParts(w, b, req);
    }
    if plan.Ok? && req.total > 0 && plan.value.period !in b.closed && FreshKey(b, req.key) {
      PlanPrepares(w, req.fund, req.total, req.notice, true, d);
      PlanAffordableIff(w, b.transfers, req.fund, req.total, req.notice, true, d);
      hide WorldOk, PlanFor, Prepare, PositiveRows, CommitmentsAllow, LockOrder, Affordable, KeyIndex, HashOf;
      PostedFromParts(w, b, d, Prepare(w, true, d).value);
    }
  }

  /**
   * A capital call is created exactly when its key is present and fresh, the fund is known, an open period covers
   * the notice date, the fund has partners, the total is a positive number of pennies, no partner's share exceeds
   * what is left of the commitment, and it is due no earlier than noticed.
   */
  lemma CallAcceptedIff(w: World, b: Books, req: Request)
    requires WorldOk(w) && req.Call?
    ensures JustCreated(w, b, req) <==>
      && FreshKey(b, req.key) && CanSplit(w, req.fund, req.total, req.notice)
      && PeriodFor(w, req.fund, req.notice) !in b.closed && 0 < req.total && req.notice <= req.due
      && (forall i :: 0 <= i < |CommitmentsOf(w, req.fund)| && i < |SharesOf(w, req.fund, req.total)| ==>
            Contributed(w, b.transfers, LpAccount(w, req.fund, CommitmentsOf(w, req.fund)[i].lp))
            + SharesOf(w, req.fund, req.total)[i] <= CommitmentsOf(w, req.fund)[i].committed)
  {
    hide WorldOk, JustCreated, PlanFor, CanSplit, FreshKey, PeriodFor, SharesOf, CommitmentsOf, Contributed, LpAccount;
    CallAcceptedWithPlan(w, b, req);
    PlanMadeIff(w, req.fund, req.total, req.notice, true);
  }

  /** What an accepted call or distribution passed. */
  lemma AcceptedParts(w: World, b: Books, req: Request)
    requires (req.Call? || req.Distribute?) && JustCreated(w, b, req)
    ensures var d := DraftOf(w, req, None);
      && FreshKey(b, req.key) && PlanError(w, b.transfers, req).None? && DocumentError(req).None?
      && Posted(w, b, d).Ok? && d.period !in b.closed && Prepare(w, true, d).Ok?
      && Sufficient(w, b.transfers, d, Prepare(w, true, d).value)
  {
    hide Posted, Prepare, KeyIndex, HashOf, PlanError, DocumentError, PlanFor, Sufficient;
    CreatedFrom(w, b, req);
    PostedParts(w, b, DraftOf(w, req, None));
  }

  lemma DistributionAcceptedWithPlan(w: World, b: Books, req: Request)
    requires WorldOk(w) && req.Distribute?
    ensures JustCreated(w, b, req) <==>
      var plan := PlanFor(w, req.fund, req.total, req.payment, false);
      && FreshKey(b, req.key) && plan.Ok? && plan.value.period !in b.closed
      && 0 < req.total <= NativeBalance(b.transfers, CashAccount(w, req.fund))
  {
    var plan := PlanFor(w, req.fund, req.total, req.payment, false);
    var d := DraftOf(w, req, None);
    if JustCreated(w, b, req) {
      AcceptedParts(w, b, req);
    }
    if plan.Ok? && req.total > 0 {
      PlanPrepares(w, req.fund, req.total, req.payment, false, d);
      PlanAffordableIff(w, b.transfers, req.fund, req.total, req.payment, false, d);
      hide WorldOk, PlanFor, Prepare, PositiveRows, LockOrder, Affordable, KeyIndex, HashOf, NativeBalance;
      var entries := Prepare(w, true, d).value;
      if plan.value.period !in b.closed && FreshKey(b, req.key) && Sufficient(w, b.transfers, d, entries) {
        PostedFromParts(w, b, d, entries);
      }
    }
  }

  /**
   * A distribution is created exactly when its key is present and fresh, the fund is known, an open period covers
   * the payment date, the fund has partners, and the total is a positive number of pennies that cash can pay.
   */
  lemma DistributionAcceptedIff(w: World, b: Books, req: Request)
    requires WorldOk(w) && req.Distribute?
    ensures JustCreated(w, b, req) <==>
      && FreshKey(b, req.key) && CanSplit(w, req.fund, req.total, req.payment)
      && PeriodFor(w, req.fund, req.payment) !in b.closed
      && 0 < req.total <= NativeBalance(b.transfers, CashAccount(w, req.fund))
  {
    hide WorldOk, JustCreated, PlanFor, CanSplit, FreshKey, PeriodFor, NativeBalance, CashAccount;
    DistributionAcceptedWithPlan(w, b, req);
    PlanMadeIff(w, req.fund, req.total, req.payment, false);
  }

  /** A distribution debits each partner exactly the allocated share. */
  lemma DistributionDebitsShares(w: World, b: Books, req: Request, i: nat)
    requires WorldOk(w) && req.Distribute? && JustCreated(w, b, req) && i < |CommitmentsOf(w, req.fund)|
    ensures PlanFor(w, req.fund, req.total, req.payment, false).Ok?
    ensures Posted(w, b, DraftOf(w, req, SourceOf(b.transfers, req))).Ok?
    ensures BaseIn(NewTransfer(w, b, req).entries, {LpAccount(w, req.fund, CommitmentsOf(w, req.fund)[i].lp)})
      == PlanFor(w, req.fund, req.total, req.payment, false).value.shares[i]
  {
    AcceptedParts(w, b, req);
    hide WorldOk, Posted, Prepare, PlanFor, BaseIn, CommitmentsOf, LpAccount, CashAccount, Execute, HashOf;
    var d := DraftOf(w, req, None);
    PostedParts(w, b, d);
    CashIsNotCapital(w, req.fund);
    PlanEntriesIn(w, true, req.fund, req.total, req.payment, false, d,
                  {LpAccount(w, req.fund, CommitmentsOf(w, req.fund)[i].lp)});
    OnePartnersShare(w, req.fund, PlanFor(w, req.fund, req.total, req.payment, false).value.shares, i);
  }

  // ---- Reversals and keys --------------------------------------------------------------------------------

  /** Reversing is refused as already done exactly when somebody else's key has done it. */
  lemma AlreadyReversedIff(w: World, b: Books, req: Request)
    requires req.Reverse?
    ensures Execute(w, b, req).1 == Failed(AlreadyReversed) <==>
      var r := ReversalIndex(b.transfers, req.target);
      && req.target < |b.transfers| && b.transfers[req.target].kind != Reversal
      && r < |b.transfers| && b.transfers[r].key != req.key
  {
    hide Posted, HashOf, KeyIndex, ReversalIndex;
    var source := SourceOf(b.transfers, req);
    PostingErrors(w, b, DraftOf(w, req, source));
  }

  /** Posting itself never reports a reversal as done; a taken target is reported by its unique index. */
  lemma PostingErrors(w: World, b: Books, d: Draft)
    ensures Posted(w, b, d).Err? ==> Posted(w, b, d).error != AlreadyReversed
    ensures Posted(w, b, d) == Err(IntegrityError(ReversesUnique)) ==>
      d.reverses.Some? && ReversalIndex(b.transfers, d.reverses.value) < |b.transfers|
  {
    hide ValidLegs, SameFund, KeyIndex, ReversalIndex, Imbalance, Sufficient, PositiveRows, Pricing.PriceEach;
    hide Pricing.Absorbed, Pricing.KnownAccounts;
  }

  lemma {:induction false} OneSided(entries: seq<Entry>, d: Direction)
    requires entries != [] && !d.Unknown?
    requires forall i :: 0 <= i < |entries| ==> entries[i].direction == d && entries[i].base > 0
    ensures if d == Debit then Imbalance(entries) > 0 else Imbalance(entries) < 0
  {
    var n := |entries| - 1;
    assert entries == entries[..n] + [entries[n]];
    SumByAppend(entries[..n], entries[n], (e: Entry) => SignedBase(e));
    if n > 0 {
      OneSided(entries[..n], d);
    }
  }

  /** Balanced entries of positive amounts lie on both sides. */
  lemma BothSides(entries: seq<Entry>)
    requires entries != [] && Imbalance(entries) == 0 && PositiveRows(entries)
    requires forall i :: 0 <= i < |entries| ==> !entries[i].direction.Unknown?
    ensures exists i :: 0 <= i < |entries| && entries[i].direction == Debit
    ensures exists i :: 0 <= i < |entries| && entries[i].direction == Credit
  {
    hide Imbalance;
    if forall i :: 0 <= i < |entries| ==> entries[i].direction == Credit {
      OneSided(entries, Credit);
    }
    if forall i :: 0 <= i < |entries| ==> entries[i].direction == Debit {
      OneSided(entries, Debit);
    }
  }

  lemma FlippedLegsValid(w: World, fund: FundId, entries: seq<Entry>)
    requires |entries| >= 2 && Imbalance(entries) == 0 && EntriesOk(w, fund, entries)
    ensures ValidLegs(FlippedLegs(entries)) && Pricing.KnownAccounts(w, FlippedLegs(entries))
    ensures forall k :: 0 <= k < |entries| ==> w.accounts[FlippedLegs(entries)[k].account].fund == fund
  {
    hide Imbalance;
    var legs := FlippedLegs(entries);
    BothSides(entries);
    var i :| 0 <= i < |entries| && entries[i].direction == Debit;
    var j :| 0 <= j < |entries| && entries[j].direction == Credit;
    assert legs[i].direction == Credit && legs[j].direction == Debit;
    forall k | 0 <= k < |legs|
      ensures legs[k].account < |w.accounts| && w.accounts[legs[k].account].fund == fund
      ensures legs[k].amount > 0 && !legs[k].direction.Unknown?
    {
      assert EntryOk(w, fund, entries[k]);
    }
  }

  /** A sound transfer's flipped legs pass every check that needs no balance, in any open period of its fund. */
  lemma ReversalPrepares(w: World, t: Transfer, d: Draft)
    requires t.period < |w.periods| && d.period < |w.periods| && |t.entries| >= 2 && Imbalance(t.entries) == 0
    requires EntriesOk(w, w.periods[t.period].fund, t.entries) && d.legs == FlippedLegs(t.entries)
    requires w.periods[d.period].fund == w.periods[t.period].fund
    ensures Prepare(w, true, d) == Ok(FlippedEntries(t.entries)) && PositiveRows(FlippedEntries(t.entries))
  {
    hide Imbalance, Pricing.Price, ValidLegs, Prepare;
    FlippedLegsValid(w, w.periods[t.period].fund, t.entries);
    ReversalPricesVerbatim(w, w.periods[t.period].fund, d.fxDate, t.entries);
    FlippedBalances(w, t.entries);
    PreparedFromParts(w, d, FlippedEntries(t.entries));
  }

  lemma FlippedBalances(w: World, entries: seq<Entry>)
    requires Imbalance(entries) == 0
    requires forall i :: 0 <= i < |entries| ==> entries[i].account < |w.accounts| && !entries[i].direction.Unknown?
    ensures Imbalance(FlippedEntries(entries)) == 0
  {
    hide Imbalance, BaseIn;
    FlipNegates(entries, AllAccounts(w));
    AllTouchedIsImbalance(entries, AllAccounts(w));
    AllTouchedIsImbalance(FlippedEntries(entries), AllAccounts(w));
  }

  /**
   * A reversal is accepted exactly when its key is fresh, the target is a transfer nobody has reversed and not a
   * reversal, the period is open and the target's fund's, and every cash account can give back what it got.
   */
  lemma ReversalAcceptedIff(w: World, b: Books, req: Request)
    requires LedgerOk(w, b.transfers) && req.Reverse?
    ensures JustCreated(w, b, req) <==>
      && FreshKey(b, req.key) && Reversible(w, b.transfers, req.target)
      && req.period < |w.periods| && req.period !in b.closed
      && w.periods[req.period].fund == FundOf(w, b.transfers[req.target])
      && (forall a :: 0 <= a < |w.accounts| && w.accounts[a].kind == Cash ==>
            NativeBalance(b.transfers, a) >= NativeOn(b.transfers[req.target].entries, a))
  {
    hide LedgerOk, TransferOk, Posted, Prepare, KeyIndex, ReversalIndex, Affordable, HashOf;
    if req.target < |b.transfers| && b.transfers[req.target].kind != Reversal {
      SoundTransfer(w, b.transfers, req.target);
      if JustCreated(w, b, req) {
        ReversalParts(w, b, req);
      }
      if && FreshKey(b, req.key) && Reversible(w, b.transfers, req.target)
         && req.period < |w.periods| && req.period !in b.closed
         && w.periods[req.period].fund == FundOf(w, b.transfers[req.target])
      {
        var t, d := b.transfers[req.target], DraftOf(w, req, SourceOf(b.transfers, req));
        ReversalPrepares(w, t, d);
        GivesBackIff(w, b.transfers, d, t);
        if Sufficient(w, b.transfers, d, FlippedEntries(t.entries)) {
          PostedFromParts(w, b, d, FlippedEntries(t.entries));
        } else {
          RefusedForFunds(w, b, d);
        }
      }
    }
  }

  predicate Reversible(w: World, ts: seq<Transfer>, target: TransferId) {
    && target < |ts| && ts[target].kind != Reversal && ReversalIndex(ts, target) == |ts|
    && ts[target].period < |w.periods|
  }

  function FundOf(w: World, t: Transfer): FundId
    requires t.period < |w.periods|
  {
    w.periods[t.period].fund
  }

  lemma SoundTransfer(w: World, ts: seq<Transfer>, i: nat)
    requires LedgerOk(w, ts) && i < |ts|
    ensures ts[i].period < |w.periods| && |ts[i].entries| >= 2 && Imbalance(ts[i].entries) == 0
    ensures EntriesOk(w, w.periods[ts[i].period].fund, ts[i].entries)
  {
    assert TransferOk(w, ts[..i], ts[i]);
  }

  /** What an accepted reversal passed. */
  lemma ReversalParts(w: World, b: Books, req: Request)
    requires LedgerOk(w, b.transfers) && req.Reverse? && JustCreated(w, b, req) && req.target < |b.transfers|
    ensures FreshKey(b, req.key) && Reversible(w, b.transfers, req.target)
    ensures req.period < |w.periods| && req.period !in b.closed
    ensures w.periods[req.period].fund == FundOf(w, b.transfers[req.target])
    ensures Sufficient(w, b.transfers, DraftOf(w, req, SourceOf(b.transfers, req)),
                       FlippedEntries(b.transfers[req.target].entries))
  {
    hide LedgerOk, Posted, Prepare, KeyIndex, ReversalIndex, Affordable, HashOf, Sufficient, ValidLegs;
    var t, d := b.transfers[req.target], DraftOf(w, req, SourceOf(b.transfers, req));
    SoundTransfer(w, b.transfers, req.target);
    CreatedFrom(w, b, req);
    PostedParts(w, b, d);
    PreparedDraft(w, true, d);
    SameFundAsOriginal(w, t, d);
    ReversalPrepares(w, t, d);
  }

  lemma RefusedForFunds(w: World, b: Books, d: Draft)
    requires Prepare(w, true, d).Ok? && d.period !in b.closed
    requires !Sufficient(w, b.transfers, d, Prepare(w, true, d).value)
    ensures Posted(w, b, d) == Err(InsufficientFunds)
  {
  }

  /** The netted flipped legs are affordable exactly when every cash account can give back what it got. */
  lemma GivesBackIff(w: World, ts: seq<Transfer>, d: Draft, t: Transfer)
    requires LedgerOk(w, ts) && Prepare(w, true, d) == Ok(FlippedEntries(t.entries))
    requires forall i :: 0 <= i < |t.entries| ==> !t.entries[i].direction.Unknown?
    ensures Sufficient(w, ts, d, FlippedEntries(t.entries)) <==>
      forall a :: 0 <= a < |w.accounts| && w.accounts[a].kind == Cash ==>
        NativeBalance(ts, a) >= NativeOn(t.entries, a)
  {
    SufficientIff(w, ts, true, d);
    hide Sufficient, NativeBalance, NativeOn, Prepare, TransfersOk;
    forall a: AccountId | a < |w.accounts| && w.accounts[a].kind == Cash
      ensures Affordable(w, ts, FlippedEntries(t.entries), a) <==> NativeBalance(ts, a) >= NativeOn(t.entries, a)
    {
      FlipNegatesNative(t.entries, a);
    }
  }

  /** Two requests ask for the same thing; the key and today's date are not part of what is asked. */
  predicate SameRequest(a: Request, b: Request) {
    match a
    case PostLegs(_, kind, period, legs, _) =>
      b.PostLegs? && b.kind == kind && b.period == period && multiset(AskedOf(legs)) == multiset(AskedOf(b.legs))
    case Call(_, fund, total, notice, due, _) =>
      b.Call? && b.fund == fund && b.total == total && b.notice == notice && b.due == due
    case Distribute(_, fund, total, payment, classification, _) =>
      b.Distribute? && b.fund == fund && b.total == total && b.payment == payment && b.classification == classification
    case Reverse(_, target, period, _) => b.Reverse? && b.target == target && b.period == period
    case Close(fund, closing) => b == a
  }

  predicate Fingerprinted(req: Request) {
    !req.Close? && (req.PostLegs? ==> ValidLegs(req.legs))
  }

  /** A reused key conflicts exactly when the second request asks for something else. */
  lemma SameRequestIff(a: Request, b: Request)
    requires Fingerprinted(a) && Fingerprinted(b)
    ensures HashOf(a) == HashOf(b) <==> SameRequest(a, b)
  {
    hide Sort, MoneyText;
    match a
    case PostLegs(_, kind, period, legs, _) =>
      if b.PostLegs? {
        SamePayloadIff(kind, period, legs, b.kind, b.period, b.legs);
      }
    case Call(_, _, total, _, _, _) => if b.Call? { MoneyTextInjective(total, b.total); }
    case Distribute(_, _, total, _, _, _) => if b.Distribute? { MoneyTextInjective(total, b.total); }
    case Reverse(_, _, _, _) =>
  }
}
