/** Statements computed the way the source computes them, row by row (operations/statements.py). */
module Reports {
  import opened Results
  import opened Sums
  import opened Types
  import opened Chart
  import opened Queries
  import opened Operations
  import opened Statements
  import Allocation

  predicate HasEntryOf(ts: seq<Transfer>, account: AccountId, p: PeriodId, k: TransferType) {
    exists i :: 0 <= i < |ts| && ts[i].period == p && EffectiveKind(ts, ts[i]) == k &&
      exists j :: 0 <= j < |ts[i].entries| && ts[i].entries[j].account == account
  }

  /** The grouped query: one row for each effective type among the account's entries in the period. */
  function GroupedByKind(ts: seq<Transfer>, account: AccountId, p: PeriodId): map<TransferType, int> {
    map k | k in AllKinds && HasEntryOf(ts, account, p, k) :: BaseSum(ts, {account}, {p}, {k})
  }

  lemma EveryKind(k: TransferType)
    ensures k in AllKinds
  {
    assert k.CapitalCall? || k.Distribution? || k.Fee? || k.Investment? || k.Reversal? || k.Adjustment?;
  }

  lemma NoRowNoMovement(ts: seq<Transfer>, account: AccountId, p: PeriodId, kinds: set<TransferType>)
    requires forall k :: k in kinds ==> k !in GroupedByKind(ts, account, p)
    ensures BaseSum(ts, {account}, {p}, kinds) == 0
  {
    hide BaseIn;
    forall i | 0 <= i < |ts| ensures BaseTerm(ts, ts[i], {account}, {p}, kinds) == 0 {
      var k := EffectiveKind(ts, ts[i]);
      if ts[i].period == p && k in kinds {
        EveryKind(k);
        assert k !in GroupedByKind(ts, account, p);
        UntouchedIsZero(ts[i].entries, {account});
      }
    }
    SumByZero(ts, t => BaseTerm(ts, t, {account}, {p}, kinds));
  }

  /** The movement of an account in a period, over some effective types only. */
  function MovementIn(ts: seq<Transfer>, account: AccountId, p: PeriodId, kinds: set<TransferType>): Movement {
    Movement(
      -BaseSum(ts, {account}, {p}, {CapitalCall} * kinds),
      BaseSum(ts, {account}, {p}, {Distribution} * kinds),
      -BaseSum(ts, {account}, {p}, OtherKinds * kinds),
      0, 0)
  }

  /** `_lp_ledger_movement`: the grouped rows may come in any order, and a type without entries has no row. */
  method LpLedgerMovement(ts: seq<Transfer>, account: AccountId, p: PeriodId) returns (m: Movement)
    ensures m.contributions == -BaseSum(ts, {account}, {p}, {CapitalCall})
    ensures m.distributions == BaseSum(ts, {account}, {p}, {Distribution})
    ensures m.other == -BaseSum(ts, {account}, {p}, OtherKinds)
    ensures m.gains == 0 && m.fees == 0
  {
    hide BaseSum, HasEntryOf, MovementIn;
    var rows := GroupedByKind(ts, account, p);
    var todo := rows.Keys;
    m := Movement(0, 0, 0, 0, 0);
    NoMovementYet(ts, account, p);
    assert rows.Keys - todo == {};
    while todo != {}
      invariant todo <= rows.Keys
      invariant m == MovementIn(ts, account, p, rows.Keys - todo)
      decreases |todo|
    {
      var kind :| kind in todo;
      var creditPositive := -rows[kind]; // LP capital is credit-normal
      RowCounted(ts, account, p, rows.Keys - todo, kind);
      if kind == CapitalCall {
        m := m.(contributions := m.contributions + creditPositive);
      } else if kind == Distribution {
        m := m.(distributions := m.distributions - creditPositive);
      } else {
        m := m.(other := m.other + creditPositive);
      }
      assert rows.Keys - (todo - {kind}) == rows.Keys - todo + {kind};
      todo := todo - {kind};
    }
    assert rows.Keys - todo == rows.Keys;
    RowsAreEnough(ts, account, p);
  }

  lemma NoMovementYet(ts: seq<Transfer>, account: AccountId, p: PeriodId)
    ensures MovementIn(ts, account, p, {}) == Movement(0, 0, 0, 0, 0)
  {
    hide BaseSum;
    assert {CapitalCall} * {} == {} && {Distribution} * {} == {} && OtherKinds * {} == {};
    NoKinds(ts, {account}, {p});
  }

  lemma NoKinds(ts: seq<Transfer>, a: set<AccountId>, p: set<PeriodId>)
    ensures BaseSum(ts, a, p, {}) == 0
  {
    SumByZero(ts, t => BaseTerm(ts, t, a, p, {}));
  }

  /** Going over one more row moves the one field that its type belongs to. */
  lemma RowCounted(ts: seq<Transfer>, account: AccountId, p: PeriodId, done: set<TransferType>, kind: TransferType)
    requires kind !in done
    ensures var m, total := MovementIn(ts, account, p, done), BaseSum(ts, {account}, {p}, {kind});
      MovementIn(ts, account, p, done + {kind}) ==
        if kind == CapitalCall then m.(contributions := m.contributions - total)
        else if kind == Distribution then m.(distributions := m.distributions + total)
        else m.(other := m.other - total)
  {
    hide BaseSum;
    EveryKind(kind);
    KindCounted(ts, {account}, {p}, done, kind, {CapitalCall});
    KindCounted(ts, {account}, {p}, done, kind, {Distribution});
    KindCounted(ts, {account}, {p}, done, kind, OtherKinds);
  }

  lemma KindCounted(ts: seq<Transfer>, a: set<AccountId>, p: set<PeriodId>, done: set<TransferType>,
                    kind: TransferType, kinds: set<TransferType>)
    requires kind !in done
    ensures BaseSum(ts, a, p, kinds * (done + {kind})) == BaseSum(ts, a, p, kinds * done)
      + if kind in kinds then BaseSum(ts, a, p, {kind}) else 0
  {
    hide BaseSum;
    if kind in kinds {
      assert kinds * (done + {kind}) == kinds * done + {kind};
      SplitByKinds(ts, a, p, kinds * done, {kind});
    } else {
      assert kinds * (done + {kind}) == kinds * done;
    }
  }

  /** Types without a row have no movement. */
  lemma RowsAreEnough(ts: seq<Transfer>, account: AccountId, p: PeriodId)
    ensures MovementIn(ts, account, p, GroupedByKind(ts, account, p).Keys) == Movement(
      -BaseSum(ts, {account}, {p}, {CapitalCall}), BaseSum(ts, {account}, {p}, {Distribution}),
      -BaseSum(ts, {account}, {p}, OtherKinds), 0, 0)
  {
    hide BaseSum, GroupedByKind;
    RowsCoverKinds(ts, account, p, {CapitalCall});
    RowsCoverKinds(ts, account, p, {Distribution});
    RowsCoverKinds(ts, account, p, OtherKinds);
  }

  lemma RowsCoverKinds(ts: seq<Transfer>, account: AccountId, p: PeriodId, kinds: set<TransferType>)
    ensures BaseSum(ts, {account}, {p}, kinds * GroupedByKind(ts, account, p).Keys)
      == BaseSum(ts, {account}, {p}, kinds)
  {
    hide BaseSum, GroupedByKind;
    var keys := GroupedByKind(ts, account, p).Keys;
    assert kinds == kinds * keys + (kinds - keys);
    SplitByKinds(ts, {account}, {p}, kinds * keys, kinds - keys);
    NoRowNoMovement(ts, account, p, kinds - keys);
  }

  /** `allocate(total, commitments, quantum=FOUR_DP)[lp]`, for the partner at position i. */
  method AllocatedShare(w: World, fund: FundId, total: int, i: nat) returns (share: int)
    requires WorldOk(w) && i < |CommitmentsOf(w, fund)|
    ensures share == ShareOf(w, fund, total, i)
  {
    hide WorldOk, CommitmentsOf, Allocation.Allocated, Allocation.Usable, Items;
    var items := Items(CommitmentsOf(w, fund));
    CommitmentsUsable(w, fund);
    Allocation.SucceedsIff(total, items, FOUR_DP);
    var shares := Allocation.Allocate(total, items, FOUR_DP);
    share := shares.value[i];
  }

  /** A partner's movement in a period: the account's entries, and the shares of the fund's gains and fees. */
  method LpMovement(w: World, ts: seq<Transfer>, fund: FundId, i: nat, p: PeriodId) returns (m: Movement)
    requires WorldOk(w) && i < |CommitmentsOf(w, fund)|
    ensures m == MovementOf(w, ts, fund, i, p)
  {
    hide WorldOk, CommitmentsOf, BaseSum, FundAccounts, ShareOf, LpAccount;
    m := LpLedgerMovement(ts, LpAccount(w, fund, CommitmentsOf(w, fund)[i].lp), p);
    var gains := -FundTotal(w, ts, fund, GainLoss, p); // credit-normal
    var fees := FundTotal(w, ts, fund, FeeExpense, p); // debit-normal
    var gainShare := AllocatedShare(w, fund, gains, i);
    var feeShare := AllocatedShare(w, fund, fees, i);
    m := m.(gains := gainShare, fees := feeShare);
  }

  /**
   * `lp_statement`: one pass over the fund's periods through the given one. It refuses a partner who has no
   * commitment to the fund, and otherwise returns the partner's statement.
   */
  method LpStatement(w: World, ts: seq<Transfer>, lp: LpId, period: PeriodId) returns (r: Result<Statement, Error>)
    requires WorldOk(w) && period < |w.periods|
    ensures r.Err? <==> forall c :: c in CommitmentsOf(w, w.periods[period].fund) ==> c.lp != lp
    ensures r.Err? ==> r.error == DoesNotExist
    ensures forall i :: 0 <= i < |CommitmentsOf(w, w.periods[period].fund)|
                        && CommitmentsOf(w, w.periods[period].fund)[i].lp == lp ==>
              r == Ok(StatementOf(w, ts, period, i))
  {
    hide WorldOk, CommitmentsOf, MovementOf, PeriodsBelow, PeriodsBefore, PeriodsThrough;
    var fund := w.periods[period].fund;
    var commitments := CommitmentsOf(w, fund);
    var i := FirstIndex(commitments, (c: Commitment) => c.lp == lp);
    if i == |commitments| {
      return Err(DoesNotExist);
    }
    PartnersDistinct(w, fund);
    assert commitments[i] in commitments;
    var opening, contributedToDate := 0, 0;
    var current := Movement(0, 0, 0, 0, 0);
    var periods := PeriodsThrough(w, fund, w.periods[period].start);
    ghost var before := PeriodsBefore(w, period);
    ThroughEndsWithPeriod(w, period);
    EarlierPeriods(w, period);
    for n := 0 to |periods|
      invariant n <= |before| ==> current == Movement(0, 0, 0, 0, 0)
      invariant opening == NetThrough(w, ts, fund, i, if n <= |before| then before[..n] else before)
      invariant contributedToDate == ContributedThrough(w, ts, fund, i, periods[..n])
      invariant n > |before| ==> current == MovementOf(w, ts, fund, i, period)
    {
      var p := periods[n];
      var movement := LpMovement(w, ts, fund, i, p);
      contributedToDate := contributedToDate + movement.contributions;
      assert periods[..n + 1] == periods[..n] + [p];
      SumByAppend(periods[..n], p, (q: PeriodId) => MovementOf(w, ts, fund, i, q).contributions);
      if p == period {
        current := movement;
      } else {
        opening := opening + movement.Net();
        assert before[..n + 1] == before[..n] + [p];
        SumByAppend(before[..n], p, (q: PeriodId) => MovementOf(w, ts, fund, i, q).Net());
      }
      assert n == |before| ==> before[..n] == before;
    }
    assert periods[..|periods|] == before + [period];
    SumByAppend(before, period, (q: PeriodId) => MovementOf(w, ts, fund, i, q).contributions);
    var commitment := commitments[i].committed;
    return Ok(Statement(opening, current, opening + current.Net(), commitment, contributedToDate,
                        commitment - contributedToDate));
  }

  lemma EarlierPeriods(w: World, p: PeriodId)
    requires p < |w.periods|
    ensures forall k :: 0 <= k < |PeriodsBefore(w, p)| ==> PeriodsBefore(w, p)[k] < p
  {
    forall k | 0 <= k < |PeriodsBefore(w, p)| ensures PeriodsBefore(w, p)[k] < p {
      assert PeriodsBefore(w, p)[k] in PeriodsBefore(w, p);
    }
  }
}
