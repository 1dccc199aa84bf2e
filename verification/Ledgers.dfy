/**
 * The ledger as its code runs when no other transaction interferes: tables updated in place, one statement at a
 * time, with a savepoint to roll back to (ledger/services.py, ledger/idempotency.py, operations/services.py,
 * operations/periods.py, operations/statements.py).
 */
module Ledgers {
  import opened Results
  import opened Sums
  import opened Sorting
  import opened Types
  import opened Chart
  import opened Queries
  import opened Posting
  import opened Operations
  import opened Statements
  import Allocation
  import Pricing

  // ---- Steps that only read ------------------------------------------------------------------------------

  /** `validate_legs`. */
  method ValidateLegs(legs: seq<Leg>) returns (ok: bool)
    ensures ok == ValidLegs(legs)
  {
    if |legs| < 2 {
      return false;
    }
    var directions: set<Direction> := set i | 0 <= i < |legs| :: legs[i].direction;
    if !(directions <= {Debit, Credit}) {
      return false;
    }
    if directions != {Debit, Credit} {
      return false;
    }
    assert Debit in directions && Credit in directions;
    for n := 0 to |legs|
      invariant forall i :: 0 <= i < n ==> legs[i].amount > 0
    {
      assert legs[n].direction in directions;
      if legs[n].amount <= 0 {
        return false;
      }
    }
    forall i | 0 <= i < |legs| ensures !legs[i].direction.Unknown? {
      assert legs[i].direction in directions;
    }
    return true;
  }

  /**
   * `_lock_accounts`: the rows found, in ascending id order. Comparing the number of rows with the number of
   * distinct ids is enough to notice a missing account.
   */
  method LockAccounts(w: World, legs: seq<Leg>) returns (r: Result<seq<AccountId>, Error>)
    ensures r == if Pricing.KnownAccounts(w, legs) then Ok(LockOrder(w, legs)) else Err(UnknownAccount)
  {
    var ids: set<AccountId> := set i | 0 <= i < |legs| :: legs[i].account;
    var locked := LockOrder(w, legs);
    EveryIdLockedIff(w, legs, ids);
    return if |locked| != |ids| then Err(UnknownAccount) else Ok(locked);
  }

  lemma EveryIdLockedIff(w: World, legs: seq<Leg>, ids: set<AccountId>)
    requires ids == set i | 0 <= i < |legs| :: legs[i].account
    ensures |LockOrder(w, legs)| == |ids| <==> Pricing.KnownAccounts(w, legs)
  {
    var locked := LockOrder(w, legs);
    var found: set<AccountId> := set a: AccountId | a in locked;
    CountDistinct(locked, found);
    assert found <= ids;
    if Pricing.KnownAccounts(w, legs) {
      forall a | a in ids ensures a in found {
        assert Touches(legs, a);
      }
      assert found == ids;
    } else {
      var i :| 0 <= i < |legs| && legs[i].account >= |w.accounts|;
      var a := legs[i].account;
      assert a in ids && a !in locked;
      SubsetIsSmaller(found, ids);
    }
  }

  lemma {:induction false} CountDistinct(s: seq<AccountId>, elements: set<AccountId>)
    requires elements == set a: AccountId | a in s
    requires forall i, j :: 0 <= i < j < |s| ==> s[i] < s[j]
    ensures |elements| == |s|
  {
    if s != [] {
      var n := |s| - 1;
      var front: set<AccountId> := set a: AccountId | a in s[..n];
      CountDistinct(s[..n], front);
      assert s == s[..n] + [s[n]];
      assert elements == front + {s[n]};
    }
  }

  lemma SubsetIsSmaller(a: set<AccountId>, b: set<AccountId>)
    requires a <= b && a != b
    ensures |a| < |b|
  {
    assert b == a + (b - a);
    var x :| x in b - a;
    assert |b - a| > 0;
  }

  lemma NativeStep(entries: seq<Entry>, n: nat, a: AccountId)
    requires n < |entries|
    ensures NativeOn(entries[..n + 1], a) == NativeOn(entries[..n], a)
      + if entries[n].account == a then SignedAmount(entries[n]) else 0
  {
    assert entries[..n + 1] == entries[..n] + [entries[n]];
    SumByAppend(entries[..n], entries[n], (e: Entry) => if e.account == a then SignedAmount(e) else 0);
  }

  lemma UntouchedIsAffordable(w: World, ts: seq<Transfer>, entries: seq<Entry>, a: AccountId)
    requires forall e :: e in entries ==> e.account != a
    ensures Affordable(w, ts, entries, a)
  {
    SumByZero(entries, (e: Entry) => if e.account == a then SignedAmount(e) else 0);
  }

  /** `_check_sufficient_funds`: legs on one account are netted before the balance is read. */
  method CheckSufficientFunds(w: World, ts: seq<Transfer>, entries: seq<Entry>) returns (ok: bool)
    requires forall e :: e in entries ==> e.account < |w.accounts| && !e.direction.Unknown?
    ensures ok <==> forall a: AccountId :: Affordable(w, ts, entries, a)
  {
    hide NativeBalance, NativeOn;
    var deltas: map<AccountId, int> := map[];
    for n := 0 to |entries|
      invariant forall a :: a in deltas ==>
        a < |w.accounts| && w.accounts[a].kind == Cash && deltas[a] == NativeOn(entries[..n], a)
      invariant forall i :: 0 <= i < n && w.accounts[entries[i].account].kind == Cash ==> entries[i].account in deltas
    {
      var e := entries[n];
      forall a ensures NativeOn(entries[..n + 1], a) == NativeOn(entries[..n], a)
                       + if e.account == a then SignedAmount(e) else 0 {
        NativeStep(entries, n, a);
      }
      if w.accounts[e.account].kind == Cash {
        var held := if e.account in deltas then deltas[e.account] else 0;
        FirstTouch(w, entries, n, deltas);
        deltas := deltas[e.account := held + if e.direction == Debit then e.amount else -e.amount];
      }
    }
    assert entries[..|entries|] == entries;
    var todo := deltas.Keys;
    while todo != {}
      invariant todo <= deltas.Keys
      invariant forall a :: a in deltas && a !in todo ==> Affordable(w, ts, entries, a)
      decreases |todo|
    {
      var a :| a in todo;
      if deltas[a] < 0 && NativeBalance(ts, a) + deltas[a] < 0 {
        assert !Affordable(w, ts, entries, a);
        return false;
      }
      todo := todo - {a};
    }
    forall a: AccountId ensures Affordable(w, ts, entries, a) {
      if a !in deltas && exists e :: e in entries && e.account == a {
        assert a >= |w.accounts| || w.accounts[a].kind != Cash;
      } else if a !in deltas {
        UntouchedIsAffordable(w, ts, entries, a);
      }
    }
    return true;
  }

  /** An account that has no delta yet has no entry yet. */
  lemma FirstTouch(w: World, entries: seq<Entry>, n: nat, deltas: map<AccountId, int>)
    requires n < |entries| && entries[n].account < |w.accounts| && w.accounts[entries[n].account].kind == Cash
    requires forall i :: 0 <= i < n ==> entries[i].account < |w.accounts|
    requires forall i :: 0 <= i < n && w.accounts[entries[i].account].kind == Cash ==> entries[i].account in deltas
    ensures entries[n].account !in deltas ==> NativeOn(entries[..n], entries[n].account) == 0
  {
    var a := entries[n].account;
    if a !in deltas {
      SumByZero(entries[..n], (e: Entry) => if e.account == a then SignedAmount(e) else 0);
    }
  }

  /** Checking every account is checking the locked ones. */
  lemma SufficientIff(w: World, ts: seq<Transfer>, open: bool, d: Draft)
    requires Prepare(w, open, d).Ok?
    ensures var entries := Prepare(w, open, d).value;
      Sufficient(w, ts, d, entries) <==> forall a: AccountId :: Affordable(w, ts, entries, a)
  {
    hide Prepare, Affordable, ValidLegs, SameFund;
    PreparedDraft(w, open, d);
    PreparedEntries(w, open, d);
    var entries, locked := Prepare(w, open, d).value, LockOrder(w, d.legs);
    if Sufficient(w, ts, d, entries) {
      forall a: AccountId ensures Affordable(w, ts, entries, a) {
        if a in locked {
          var i :| 0 <= i < |locked| && locked[i] == a;
        } else {
          forall i | 0 <= i < |entries| ensures entries[i].account != a {
            assert d.legs[i].account == a ==> Touches(d.legs, a);
          }
          UntouchedIsAffordable(w, ts, entries, a);
        }
      }
    }
  }

  /** The legs of one more partner, one after the other. */
  lemma LegsSoFar(w: World, fund: FundId, rows: seq<ShareRow>, n: nat, call: bool)
    requires n < |rows|
    ensures var cash, capital, share := CashAccount(w, fund), LpAccount(w, fund, rows[n].lp), rows[n].share;
      var before := ShareLegs(w, fund, rows[..n], call);
      ShareLegs(w, fund, rows[..n + 1], call) ==
        if share == 0 then before
        else before + [Leg(if call then cash else capital, Debit, share, None, None)]
                    + [Leg(if call then capital else cash, Credit, share, None, None)]
  {
    hide CashAccount, LpAccount;
    assert rows[..n + 1][..n] == rows[..n];
  }

  // ---- The tables ----------------------------------------------------------------------------------------

  class Ledger {
    const w: World
    var transfers: seq<Transfer>
    var closed: set<PeriodId>
    var calls: seq<CallDoc>
    var distributions: seq<DistributionDoc>
    var snapshots: map<(FundId, Date), int>

    constructor (w: World)
      ensures this.w == w && Rows() == EmptyBooks && snapshots == map[]
    {
      this.w := w;
      transfers, closed, calls, distributions, snapshots := [], {}, [], [], map[];
    }

    function Rows(): Books
      reads this
    {
      Books(transfers, closed, calls, distributions)
    }

    /** The server undoes a transaction: every table is as it was at the savepoint. */
    method RollBack(savepoint: Books)
      modifies this`transfers, this`closed, this`calls, this`distributions
      ensures Rows() == savepoint
    {
      transfers, closed := savepoint.transfers, savepoint.closed;
      calls, distributions := savepoint.calls, savepoint.distributions;
    }

    /**
     * Insert the transfer row. The table's checks and unique indexes refuse an empty key, a reversal without a
     * target, a target without a reversal, a key already taken and a target already reversed.
     */
    method InsertTransfer(d: Draft) returns (r: Result<TransferId, Error>)
      modifies this`transfers
      ensures var b := old(Rows());
        if TransferRowError(d).Some? then r == Err(TransferRowError(d).value) && Rows() == b
        else if KeyIndex(b.transfers, d.key) < |b.transfers| then
          r == Err(IntegrityError(IdempotencyKeyUnique)) && Rows() == b
        else if !ReverseFree(b.transfers, d.reverses) then
          r == Err(IntegrityError(ReversesUnique)) && Rows() == b
        else r == Ok(|b.transfers|) && Rows() == AddTransfer(b, Made(d, []))
    {
      hide KeyIndex, ReversalIndex;
      if d.key == "" {
        return Err(IntegrityError(KeyPresent));
      }
      if (d.kind == Reversal) != d.reverses.Some? {
        return Err(IntegrityError(ReversalShape));
      }
      if KeyIndex(transfers, d.key) < |transfers| {
        return Err(IntegrityError(IdempotencyKeyUnique));
      }
      if d.reverses.Some? && ReversalIndex(transfers, d.reverses.value) < |transfers| {
        return Err(IntegrityError(ReversesUnique));
      }
      r := Ok(|transfers|);
      transfers := transfers + [Made(d, [])];
    }

    /**
     * Insert the entries of the newest transfer one row at a time. Each row is refused while its period is
     * closed, or when an amount or a rate is not positive.
     */
    method InsertEntries(entries: seq<Entry>) returns (failed: Option<Error>)
      requires transfers != [] && transfers[|transfers| - 1].entries == []
      modifies this`transfers
      ensures var n := |old(transfers)| - 1;
        |transfers| == n + 1 && transfers[..n] == old(transfers)[..n]
      ensures var t := old(transfers)[|transfers| - 1];
        failed == if entries == [] then None
                  else if t.period in closed then Some(IntegrityError(PeriodOpen))
                  else if !PositiveRows(entries) then Some(IntegrityError(EntryPositive))
                  else None
      ensures failed.None? ==> transfers[|transfers| - 1] == old(transfers)[|transfers| - 1].(entries := entries)
    {
      var last := |transfers| - 1;
      for n := 0 to |entries|
        invariant |transfers| == last + 1 && transfers[..last] == old(transfers)[..last]
        invariant transfers[last] == old(transfers)[last].(entries := entries[..n])
        invariant n > 0 ==> transfers[last].period !in closed
        invariant PositiveRows(entries[..n])
      {
        var e := entries[n];
        if transfers[last].period in closed {
          return Some(IntegrityError(PeriodOpen));
        }
        if e.amount <= 0 || e.base <= 0 || (e.fxRate.Some? && e.fxRate.value <= 0) {
          return Some(IntegrityError(EntryPositive));
        }
        assert entries[..n + 1] == entries[..n] + [e];
        transfers := transfers[last := transfers[last].(entries := transfers[last].entries + [e])];
      }
      assert entries[..|entries|] == entries;
      return None;
    }

    /** `post_transfer`: every check in turn, then the two inserts, or nothing at all. */
    method PostTransfer(d: Draft) returns (r: Result<TransferId, Error>)
      modifies this`transfers
      ensures var b := old(Rows());
        match Posted(w, b, d)
        case Err(e) => r == Err(e) && Rows() == b
        case Ok(t) => r == Ok(|b.transfers|) && Rows() == AddTransfer(b, t)
    {
      hide KeyIndex, ReversalIndex, Pricing.Price, SameFund, LockOrder, Affordable;
      if d.period >= |w.periods| {
        return Err(DoesNotExist);
      }
      var valid := ValidateLegs(d.legs);
      if !valid {
        return Err(InvalidTransfer);
      }
      var locked := LockAccounts(w, d.legs);
      if locked.Err? {
        return Err(locked.error);
      }
      if d.period in closed {
        return Err(ClosedPeriod);
      }
      if !SameFund(w, d.period, d.legs) {
        return Err(InvalidTransfer);
      }
      var priced := Pricing.PriceLegs(w, BaseCurrency(w, w.periods[d.period].fund), d.fxDate, d.legs);
      if priced.Err? {
        return Err(priced.error);
      }
      var entries := priced.value;
      if Imbalance(entries) != 0 {
        return Err(UnbalancedTransfer);
      }
      assert Prepare(w, d.period !in closed, d) == Ok(entries);
      PreparedEntries(w, d.period !in closed, d);
      SufficientIff(w, transfers, d.period !in closed, d);
      hide Prepare, ValidLegs;
      var sufficient := CheckSufficientFunds(w, transfers, entries);
      if !sufficient {
        return Err(InsufficientFunds);
      }
      var savepoint := transfers;
      r := InsertTransfer(d);
      if r.Err? {
        return;
      }
      var failed := InsertEntries(entries);
      if failed.Some? {
        transfers := savepoint;
        return Err(failed.value);
      }
      assert transfers == savepoint + [Made(d, entries)];
    }

    // ---- The create closures -----------------------------------------------------------------------------

    /** `_pro_rata`: each partner's share of a total, in whole pennies. */
    method ProRata(fund: FundId, total: int) returns (r: Result<seq<int>, Error>)
      ensures r == match Allocation.Allocated(total, Items(CommitmentsOf(w, fund)), PENNY)
                   case Err(_) => Err(InvalidTransfer)
                   case Ok(shares) => Ok(shares)
    {
      hide Allocation.Allocated, CommitmentsOf;
      var shares := Allocation.Allocate(total, Items(CommitmentsOf(w, fund)), PENNY);
      r := match shares
           case Err(_) => Err(InvalidTransfer)
           case Ok(value) => Ok(value);
    }

    /** Two legs for each partner with a nonzero share, partners in the order of their ids' text. */
    method BuildLegs(fund: FundId, rows: seq<ShareRow>, call: bool) returns (legs: seq<Leg>)
      ensures legs == ShareLegs(w, fund, rows, call)
    {
      var cash := CashAccount(w, fund);
      legs := [];
      assert ShareLegs(w, fund, rows[..0], call) == [];
      hide ShareLegs, CashAccount, LpAccount;
      for n := 0 to |rows|
        invariant legs == ShareLegs(w, fund, rows[..n], call)
      {
        LegsSoFar(w, fund, rows, n, call);
        if rows[n].share == 0 {
          continue;
        }
        var capital := LpAccount(w, fund, rows[n].lp);
        var debit, credit := if call then cash else capital, if call then capital else cash;
        legs := legs + [Leg(debit, Debit, rows[n].share, None, None)];
        legs := legs + [Leg(credit, Credit, rows[n].share, None, None)];
      }
      assert rows[..|rows|] == rows;
    }

    /** The commitment check of a capital call, against one grouped query. */
    method CheckCommitments(fund: FundId, shares: seq<int>) returns (ok: bool)
      requires |shares| == |CommitmentsOf(w, fund)|
      ensures ok == CommitmentsAllow(w, transfers, fund, shares)
    {
      hide CommitmentsOf, LpAccount, Contributed;
      var commitments := CommitmentsOf(w, fund);
      var accounts := LpAccountIds(w, fund, commitments);
      var paidIn := ContributedByAccount(w, transfers, accounts);
      GroupedIsPerAccount(w, transfers, accounts);
      for n := 0 to |commitments|
        invariant forall i :: 0 <= i < n ==>
          shares[i] <= commitments[i].committed - Contributed(w, transfers, LpAccount(w, fund, commitments[i].lp))
      {
        assert accounts[n] in accounts;
        var unfunded := commitments[n].committed - paidIn[accounts[n]];
        if shares[n] > unfunded {
          return false;
        }
      }
      return true;
    }

    /** The create closure of `create_capital_call`. */
    method CreateCall(req: Request) returns (r: Result<TransferId, Error>)
      requires req.Call?
      modifies this`transfers, this`calls
      ensures var b := old(Rows());
        match Created(w, b, req, None)
        case Err(e) => r == Err(e) && Rows() == b
        case Ok(after) => r == Ok(|b.transfers|) && Rows() == after
    {
      hide Posted, CommitmentsOf, ShareLegs, LastNumber, PeriodFor, CommitmentsAllow, Allocation.Allocated;
      if req.fund !in w.funds {
        return Err(DoesNotExist);
      }
      var period := PeriodFor(w, req.fund, req.notice);
      if period == |w.periods| {
        return Err(NoPeriod);
      }
      var shares := ProRata(req.fund, req.total);
      if shares.Err? {
        return Err(shares.error);
      }
      var allowed := CheckCommitments(req.fund, shares.value);
      if !allowed {
        return Err(CommitmentExceeded);
      }
      var legs := BuildLegs(req.fund, Sort(ShareRows(CommitmentsOf(w, req.fund), shares.value), ByLp), true);
      var number := LastNumber(CallTags(calls), req.fund) + 1;
      var savepoint := transfers;
      r := PostTransfer(Draft(req.key, HashOf(req), CapitalCall, None, period, legs, req.today));
      if r.Err? {
        return;
      }
      if req.due < req.notice {
        transfers := savepoint;
        return Err(IntegrityError(CallDueAfterNotice));
      }
      if req.total <= 0 {
        transfers := savepoint;
        return Err(IntegrityError(CallPositive));
      }
      calls := calls + [CallDoc(req.fund, number, req.notice, req.due, req.total, r.value)];
    }

    /** The create closure of `create_distribution`. */
    method CreateDistribution(req: Request) returns (r: Result<TransferId, Error>)
      requires req.Distribute?
      modifies this`transfers, this`distributions
      ensures var b := old(Rows());
        match Created(w, b, req, None)
        case Err(e) => r == Err(e) && Rows() == b
        case Ok(after) => r == Ok(|b.transfers|) && Rows() == after
    {
      hide Posted, CommitmentsOf, ShareLegs, LastNumber, PeriodFor, Allocation.Allocated;
      if req.fund !in w.funds {
        return Err(DoesNotExist);
      }
      var period := PeriodFor(w, req.fund, req.payment);
      if period == |w.periods| {
        return Err(NoPeriod);
      }
      var shares := ProRata(req.fund, req.total);
      if shares.Err? {
        return Err(shares.error);
      }
      var legs := BuildLegs(req.fund, Sort(ShareRows(CommitmentsOf(w, req.fund), shares.value), ByLp), false);
      var number := LastNumber(DistributionTags(distributions), req.fund) + 1;
      var savepoint := transfers;
      r := PostTransfer(Draft(req.key, HashOf(req), Distribution, None, period, legs, req.today));
      if r.Err? {
        return;
      }
      if req.total <= 0 {
        transfers := savepoint;
        return Err(IntegrityError(DistributionPositive));
      }
      distributions := distributions
        + [DistributionDoc(req.fund, number, req.payment, req.total, req.classification, r.value)];
    }

    method Create(req: Request, source: Option<Transfer>) returns (r: Result<TransferId, Error>)
      requires !req.Close? && (req.Call? || req.Distribute? ==> source.None?)
      modifies this`transfers, this`calls, this`distributions
      ensures var b := old(Rows());
        match Created(w, b, req, source)
        case Err(e) => r == Err(e) && Rows() == b
        case Ok(after) => r == Ok(|b.transfers|) && Rows() == after
    {
      hide Posted, CommitmentsAllow, PlanFor, HashOf;
      if req.Call? {
        r := CreateCall(req);
      } else if req.Distribute? {
        r := CreateDistribution(req);
      } else {
        r := PostTransfer(DraftOf(w, req, source));
      }
    }

    // ---- Exactly once ------------------------------------------------------------------------------------

    /**
     * `_run_once`: replay a known key; otherwise create, and look the key up again when the creation fails on
     * the key or on a business rule.
     */
    method RunIdempotent(req: Request, source: Option<Transfer>) returns (response: Response)
      requires !req.Close? && (req.Call? || req.Distribute? ==> source.None?)
      modifies this`transfers, this`calls, this`distributions
      ensures (Rows(), response) == RunOnce(w, old(Rows()), req, source)
    {
      hide Created, KeyIndex, HashOf, Replayed;
      var existing := KeyIndex(transfers, req.key);
      if existing == |transfers| {
        var created := Create(req, source);
        if created.Ok? {
          return Transferred(created.value, true);
        }
        if !created.error.IsLedgerError() && created.error != IntegrityError(IdempotencyKeyUnique) {
          return Failed(created.error);
        }
        existing := KeyIndex(transfers, req.key);
        if existing == |transfers| {
          return Failed(created.error);
        }
      }
      return Replayed(Rows(), req, existing);
    }

    /** `post_transfer_idempotent`. */
    method PostTransferIdempotent(req: Request) returns (response: Response)
      requires req.PostLegs?
      modifies this`transfers, this`calls, this`distributions
      ensures (Rows(), response) == Execute(w, old(Rows()), req)
    {
      hide RunOnce, ValidLegs;
      var valid := ValidateLegs(req.legs);
      if !valid {
        return Failed(InvalidTransfer);
      }
      response := RunIdempotent(req, None);
    }

    /** `reverse_transfer`. */
    method ReverseTransfer(req: Request) returns (response: Response)
      requires req.Reverse?
      modifies this`transfers, this`calls, this`distributions
      ensures (Rows(), response) == Execute(w, old(Rows()), req)
    {
      hide RunOnce, ReversalIndex;
      if req.target >= |transfers| {
        return Failed(DoesNotExist);
      }
      var original := transfers[req.target];
      if original.kind == Reversal {
        return Failed(InvalidTransfer);
      }
      var existing := ReversalIndex(transfers, req.target);
      if existing < |transfers| && transfers[existing].key != req.key {
        return Failed(AlreadyReversed);
      }
      response := RunIdempotent(req, Some(original));
      if response == Failed(IntegrityError(ReversesUnique)) {
        response := Failed(AlreadyReversed);
      }
    }

    /** `create_capital_call` and `create_distribution`, under the fund lock. */
    method CallOrDistribute(req: Request) returns (response: Response)
      requires req.Call? || req.Distribute?
      modifies this`transfers, this`calls, this`distributions
      ensures (Rows(), response) == Execute(w, old(Rows()), req)
    {
      hide RunOnce;
      response := RunIdempotent(req, None);
    }

    // ---- Periods -----------------------------------------------------------------------------------------

    /** `close_period`. */
    method ClosePeriod(fund: FundId, period: PeriodId) returns (response: Response)
      modifies this`closed
      ensures (Rows(), response) == Execute(w, old(Rows()), Close(fund, period))
    {
      hide PeriodImbalance;
      if period >= |w.periods| || w.periods[period].fund != fund {
        return Failed(DoesNotExist);
      }
      if period in closed {
        return PeriodClosed(false);
      }
      if exists q: nat :: q < |w.periods| && Earlier(w, q, period) && q !in closed {
        return Failed(PeriodNotClosable);
      }
      var imbalance := PeriodImbalance(w, transfers, period);
      if imbalance != 0 {
        return Failed(PeriodNotClosable);
      }
      closed := closed + {period};
      return PeriodClosed(true);
    }

    /** Any request, dispatched to its operation. */
    method Serve(req: Request) returns (response: Response)
      modifies this`transfers, this`closed, this`calls, this`distributions
      ensures (Rows(), response) == Execute(w, old(Rows()), req)
    {
      hide Execute;
      match req
      case PostLegs(_, _, _, _, _) => response := PostTransferIdempotent(req);
      case Reverse(_, _, _, _) => response := ReverseTransfer(req);
      case Close(fund, closing) => response := ClosePeriod(fund, closing);
      case _ => response := CallOrDistribute(req);
    }

    // ---- Simple postings ---------------------------------------------------------------------------------

    /** `charge_fee`. */
    method ChargeFee(fund: FundId, key: string, amount: int, on: Date) returns (response: Response)
      modifies this`transfers, this`calls, this`distributions
      ensures match FeeRequest(w, fund, key, amount, on)
              case Err(e) => response == Failed(e) && Rows() == old(Rows())
              case Ok(req) => (Rows(), response) == Execute(w, old(Rows()), req)
    {
      hide Execute, GetAccount, PeriodFor;
      if fund !in w.funds {
        return Failed(DoesNotExist);
      }
      var legs := [
        Leg(GetAccount(w, fund, FeeExpense, BaseCurrency(w, fund)), Debit, amount, None, None),
        Leg(CashAccount(w, fund), Credit, amount, None, None)];
      var period := PeriodFor(w, fund, on);
      if period == |w.periods| {
        return Failed(NoPeriod);
      }
      response := PostTransferIdempotent(PostLegs(key, Fee, period, legs, on));
    }

    /** `record_valuation`. */
    method RecordValuation(fund: FundId, key: string, change: int, on: Date) returns (response: Response)
      modifies this`transfers, this`calls, this`distributions
      ensures match ValuationRequest(w, fund, key, change, on)
              case Err(e) => response == Failed(e) && Rows() == old(Rows())
              case Ok(req) => (Rows(), response) == Execute(w, old(Rows()), req)
    {
      hide Execute, GetAccount, PeriodFor;
      if change == 0 {
        return Failed(InvalidTransfer);
      }
      if fund !in w.funds {
        return Failed(DoesNotExist);
      }
      var holding := GetAccount(w, fund, Investments, BaseCurrency(w, fund));
      var gainLoss := GetAccount(w, fund, GainLoss, BaseCurrency(w, fund));
      var debit, credit := if change > 0 then holding else gainLoss, if change > 0 then gainLoss else holding;
      var amount := if change > 0 then change else -change;
      var legs := [Leg(debit, Debit, amount, None, None), Leg(credit, Credit, amount, None, None)];
      var period := PeriodFor(w, fund, on);
      if period == |w.periods| {
        return Failed(NoPeriod);
      }
      response := PostTransferIdempotent(PostLegs(key, Adjustment, period, legs, on));
    }

    /** `record_investment`. */
    method RecordInvestment(fund: FundId, key: string, amount: int, currency: Currency, on: Date)
      returns (response: Response)
      modifies this`transfers, this`calls, this`distributions
      ensures match InvestmentRequest(w, fund, key, amount, currency, on)
              case Err(e) => response == Failed(e) && Rows() == old(Rows())
              case Ok(req) => (Rows(), response) == Execute(w, old(Rows()), req)
    {
      hide Execute, GetAccount, PeriodFor, Pricing.FxRateFor, Pricing.RoundHalfEven;
      if fund !in w.funds {
        return Failed(DoesNotExist);
      }
      var period := PeriodFor(w, fund, on);
      if period == |w.periods| {
        return Failed(NoPeriod);
      }
      var holding := GetAccount(w, fund, Investments, currency);
      var cash := CashAccount(w, fund);
      var legs := [Leg(holding, Debit, amount, None, None), Leg(cash, Credit, amount, None, None)];
      if currency != BaseCurrency(w, fund) {
        var rate := Pricing.FxRateFor(w.rates, currency, BaseCurrency(w, fund), on);
        if rate.None? {
          return Failed(MissingFxRate);
        }
        // Cash moves in whole pennies.
        var cost := PENNY * Pricing.RoundHalfEven(amount * rate.value.rate, PENNY * Pricing.RATE_SCALE);
        legs := [
          Leg(holding, Debit, amount, Some(rate.value.rate), Some(cost)),
          Leg(cash, Credit, cost, None, None)];
      }
      response := PostTransferIdempotent(PostLegs(key, Investment, period, legs, on));
    }

    // ---- Reporting ---------------------------------------------------------------------------------------

    /** `snapshot_nav`: one row for each fund and date, written over when taken again. */
    method SnapshotNav(period: PeriodId)
      requires period < |w.periods|
      modifies this`snapshots
      ensures snapshots == Snapshotted(w, transfers, old(snapshots), period)
    {
      var key := (w.periods[period].fund, w.periods[period].end);
      snapshots := snapshots[key := NavThrough(w, transfers, period)];
    }
  }
}
