/** Lookups in the fixed tables (operations/chart.py, operations/periods.py). */
module Chart {
  import opened Results
  import opened Types

  function BaseCurrency(w: World, fund: FundId): Currency { if fund in w.funds then w.funds[fund] else "" }

  function AccountCode(kind: AccountType, currency: Currency): string {
    match kind
    case Cash => "CASH-" + currency
    case Investments => "INVESTMENT-" + currency
    case FeeExpense => "FEE_EXPENSE"
    case GainLoss => "GAIN_LOSS"
    case LpCapital => "LP"
    case GpCapital => "GP_CAPITAL"
  }

  /** The account with a standard code; the id past the table when the chart lacks it. */
  function GetAccount(w: World, fund: FundId, kind: AccountType, currency: Currency): AccountId {
    FirstIndex(w.accounts, (a: Account) => a.fund == fund && a.code == AccountCode(kind, currency))
  }

  function CashAccount(w: World, fund: FundId): AccountId { GetAccount(w, fund, Cash, BaseCurrency(w, fund)) }

  /** A partner's capital account in the fund's base currency. */
  function LpAccount(w: World, fund: FundId, lp: LpId): AccountId {
    FirstIndex(w.accounts, (a: Account) =>
      a.fund == fund && a.kind == LpCapital && a.currency == BaseCurrency(w, fund) && a.owner == Some(lp))
  }

  function CommitmentsOf(w: World, fund: FundId): seq<Commitment> {
    RowsOf(w.commitments, fund)
  }

  function RowsOf(cs: seq<Commitment>, fund: FundId): (r: seq<Commitment>)
    ensures forall c :: c in r <==> c in cs && c.fund == fund
  {
    if cs == [] then []
    else
      var n := |cs| - 1;
      assert cs == cs[..n] + [cs[n]];
      RowsOf(cs[..n], fund) + (if cs[n].fund == fund then [cs[n]] else [])
  }

  function LpAccountIds(w: World, fund: FundId, cs: seq<Commitment>): (r: seq<AccountId>)
    ensures |r| == |cs| && forall i :: 0 <= i < |r| ==> r[i] == LpAccount(w, fund, cs[i].lp)
  {
    seq(|cs|, i requires 0 <= i < |cs| => LpAccount(w, fund, cs[i].lp))
  }

  /** `period_for`: the first period covering a date, in (fund, start_date) order; |periods| when none does. */
  function PeriodFor(w: World, fund: FundId, on: Date): PeriodId {
    FirstIndex(w.periods, (p: Period) => p.fund == fund && p.start <= on <= p.end)
  }

  /**
   * The fixed tables satisfy their constraints, and every fund with commitments has had its accounts opened:
   * a cash account, and one base-currency capital account for each committed partner.
   */
  ghost predicate WorldOk(w: World) {
    && (forall p :: p in w.periods ==> p.fund in w.funds)
    && (forall i, j :: 0 <= i < j < |w.periods| && w.periods[i].fund == w.periods[j].fund ==>
          w.periods[i].start < w.periods[j].start)
    && (forall i :: 0 <= i < |w.commitments| ==> w.commitments[i].committed > 0)
    && (forall i, j :: 0 <= i < j < |w.commitments| ==>
          w.commitments[i].fund != w.commitments[j].fund || w.commitments[i].lp != w.commitments[j].lp)
    && StandardCodes(w)
    && (forall c :: c in w.commitments ==> Opened(w, c))
    && (forall a :: 0 <= a < |w.accounts| && w.accounts[a].kind == LpCapital ==> Owned(w, a))
  }

  ghost predicate Opened(w: World, c: Commitment) {
    LpAccount(w, c.fund, c.lp) < |w.accounts| && CashAccount(w, c.fund) < |w.accounts|
  }

  /** An account with a standard code was created by `ensure_account` for that code's type and currency. */
  ghost predicate StandardCodes(w: World) {
    forall a: nat, k: AccountType, cur ::
      a < |w.accounts| && k != LpCapital && w.accounts[a].code == AccountCode(k, cur) ==>
        w.accounts[a].kind == k && (k == Cash || k == Investments ==> w.accounts[a].currency == cur)
  }

  ghost predicate Owned(w: World, a: nat)
    requires a < |w.accounts|
  {
    var acct := w.accounts[a];
    acct.owner.Some? && LpAccount(w, acct.fund, acct.owner.value) == a &&
    exists c :: c in w.commitments && c.fund == acct.fund && c.lp == acct.owner.value
  }

  // ---- Facts about the chart -----------------------------------------------------------------------------

  lemma {:induction false} RowsStayDistinct(cs: seq<Commitment>, fund: FundId)
    requires forall i, j :: 0 <= i < j < |cs| ==> cs[i].fund != cs[j].fund || cs[i].lp != cs[j].lp
    ensures forall i, j :: 0 <= i < j < |RowsOf(cs, fund)| ==> RowsOf(cs, fund)[i].lp != RowsOf(cs, fund)[j].lp
  {
    if cs != [] {
      var n := |cs| - 1;
      RowsStayDistinct(cs[..n], fund);
      var front := RowsOf(cs[..n], fund);
      forall i | 0 <= i < |front| && cs[n].fund == fund ensures front[i].lp != cs[n].lp {
        assert front[i] in front;
        var k :| 0 <= k < n && cs[..n][k] == front[i];
        assert cs[k] == front[i];
      }
    }
  }

  /** A fund's partners are distinct, and so are their capital accounts. */
  lemma PartnersDistinct(w: World, fund: FundId)
    requires WorldOk(w)
    ensures forall i, j :: 0 <= i < j < |CommitmentsOf(w, fund)| ==>
      CommitmentsOf(w, fund)[i].lp != CommitmentsOf(w, fund)[j].lp
    ensures forall i, j :: 0 <= i < j < |CommitmentsOf(w, fund)| ==>
      LpAccount(w, fund, CommitmentsOf(w, fund)[i].lp) != LpAccount(w, fund, CommitmentsOf(w, fund)[j].lp)
  {
    RowsStayDistinct(w.commitments, fund);
    var cs := CommitmentsOf(w, fund);
    forall i, j | 0 <= i < j < |cs| ensures LpAccount(w, fund, cs[i].lp) != LpAccount(w, fund, cs[j].lp) {
      assert cs[i].lp != cs[j].lp;
      PartnerAccount(w, fund, cs[i]);
      PartnerAccount(w, fund, cs[j]);
    }
  }

  lemma PartnerAccount(w: World, fund: FundId, c: Commitment)
    requires WorldOk(w) && c in CommitmentsOf(w, fund)
    ensures c.fund == fund && c in w.commitments && c.committed > 0
    ensures var a := LpAccount(w, fund, c.lp);
      a < |w.accounts| && w.accounts[a].fund == fund && w.accounts[a].kind == LpCapital &&
      w.accounts[a].currency == BaseCurrency(w, fund) && w.accounts[a].owner == Some(c.lp)
    ensures var a := CashAccount(w, fund);
      a < |w.accounts| && w.accounts[a].fund == fund && w.accounts[a].kind == Cash &&
      w.accounts[a].currency == BaseCurrency(w, fund)
  {
    assert Opened(w, c);
  }

  /** The capital accounts of a fund are exactly its partners' accounts. */
  lemma CapitalAccountIsPartners(w: World, fund: FundId, a: AccountId)
    requires WorldOk(w) && a < |w.accounts| && w.accounts[a].fund == fund && w.accounts[a].kind == LpCapital
    ensures exists i :: 0 <= i < |CommitmentsOf(w, fund)| && LpAccount(w, fund, CommitmentsOf(w, fund)[i].lp) == a
  {
    assert Owned(w, a);
    var c :| c in w.commitments && c.fund == fund && c.lp == w.accounts[a].owner.value;
    assert c in CommitmentsOf(w, fund);
  }
}
