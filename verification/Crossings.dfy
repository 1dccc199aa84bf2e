/**
 * Histories that take a period's unfunded commitment out of the range from zero to the commitment, although every
 * request in them is accepted (operations/statements.py, operations/services.py).
 */
module Crossings {
  import opened Results
  import opened Sums
  import opened Types
  import opened Chart
  import opened Queries
  import opened Posting
  import opened Operations
  import opened Invariants
  import opened Capital
  import opened Commitments
  import opened Stability
  import opened Statements
  import opened Reconciliation
  import opened NavEffects
  import opened Acceptance
  import opened Unfunded
  import Allocation

  // ---- One fund, one partner, two open periods -----------------------------------------------------------

  const Committed := 1_000_000

  const Tiny := World(
    map[0 := "GBP"],
    [Account(0, "CASH-GBP", Cash, "GBP", None), Account(0, "LP-a", LpCapital, "GBP", Some("a"))],
    [Period(0, 0, 9), Period(0, 10, 19)],
    [Commitment(0, "a", Committed)],
    [])

  lemma TinyTables()
    ensures CommitmentsOf(Tiny, 0) == Tiny.commitments
    ensures CashAccount(Tiny, 0) == 0 && LpAccount(Tiny, 0, "a") == 1
    ensures PeriodFor(Tiny, 0, 0) == 0 && PeriodFor(Tiny, 0, 10) == 1
  {
    assert RowsOf(Tiny.commitments[..0], 0) == [];
    assert RowsOf(Tiny.commitments, 0) == [] + [Tiny.commitments[0]];
    assert AccountCode(Cash, "GBP") == "CASH-GBP";
  }

  lemma TinyCodes()
    ensures StandardCodes(Tiny)
  {
    forall a: nat, k: AccountType, cur
      | a < 2 && k != LpCapital && Tiny.accounts[a].code == AccountCode(k, cur)
      ensures Tiny.accounts[a].kind == k && (k == Cash || k == Investments ==> Tiny.accounts[a].currency == cur)
    {
      assert Tiny.accounts[a].code[0] == AccountCode(k, cur)[0];
      if k == Cash {
        assert ("CASH-" + cur)[5..] == cur && "CASH-GBP"[5..] == "GBP";
      }
    }
  }

  lemma TinyOk()
    ensures WorldOk(Tiny)
  {
    TinyTables();
    TinyCodes();
    hide StandardCodes, LpAccount, CashAccount;
    assert Opened(Tiny, Tiny.commitments[0]);
    assert Tiny.commitments[0] in Tiny.commitments;
    assert Owned(Tiny, 1);
  }

  // ---- The history so far --------------------------------------------------------------------------------

  /** Sound books, both periods open, the partner's contributions to date in each period, and cash. */
  ghost predicate At(b: Books, first: int, second: int, cash: int) {
    && BusinessOk(Tiny, b) && b.closed == {} && CommitmentsOf(Tiny, 0) == Tiny.commitments
    && ToDate(Tiny, b.transfers, 0, 0) == first && ToDate(Tiny, b.transfers, 1, 0) == second
    && NativeBalance(b.transfers, 0) == cash
  }

  /** Transfer j is a call of an amount that nobody has reversed. */
  ghost predicate OpenCall(b: Books, j: nat, amount: int) {
    && j < |b.transfers| && b.transfers[j].kind == CapitalCall && ReversalIndex(b.transfers, j) == |b.transfers|
    && b.transfers[j].period < 2
    && ShareAt(b.transfers, 1, j) == amount && NativeOn(b.transfers[j].entries, 0) == amount
  }

  predicate Free(b: Books, key: string) { key != "" && KeyIndex(b.transfers, key) == |b.transfers| }

  lemma Nothing()
    ensures At(EmptyBooks, 0, 0, 0) && forall key :: key != "" ==> Free(EmptyBooks, key)
  {
    hide WorldOk, BusinessOk, StatementOf, LpAccount, RowsOf;
    TinyOk();
    TinyTables();
    EmptyBusinessOk(Tiny);
    ToDateIsQuery(Tiny, [], 0, 0);
    ToDateIsQuery(Tiny, [], 1, 0);
  }

  function Noticed(key: string, p: PeriodId, total: int): Request { Call(key, 0, total, 10 * p, 10 * p, 0) }

  function Undone(key: string, target: TransferId, p: PeriodId): Request { Reverse(key, target, p, 0) }

  lemma TinyShares(total: int)
    requires total > 0 && total % PENNY == 0
    ensures SharesOf(Tiny, 0, total) == [total]
  {
    hide RowsOf, Allocation.Allocated, WorldOk;
    TinyOk();
    TinyTables();
    var items := Items(CommitmentsOf(Tiny, 0));
    CommitmentsUsable(Tiny, 0);
    Allocation.SharesSumToTotal(total, items, PENNY);
    var shares := Allocation.Allocated(total, items, PENNY).value;
    assert shares == [] + [shares[0]];
    assert Sum(shares) == shares[0];
  }

  /** What the partner has paid in is what the last statement shows. */
  lemma PaidInIsLast(b: Books, first: int, second: int, cash: int)
    requires At(b, first, second, cash)
    ensures Contributed(Tiny, b.transfers, 1) == second
  {
    hide WorldOk, BusinessOk, Contributed, StatementOf, RowsOf, LpAccount, CashAccount, PeriodFor, NativeBalance;
    hide LedgerOk, Linked, PointsBack, TransfersOk;
    TinyOk();
    TinyTables();
    BooksAreSound(Tiny, b);
    LedgerParts(Tiny, b.transfers);
    LastStatementContributions(Tiny, b.transfers, 1, 0);
  }

  /** A call within what is left over all periods is accepted, and counts from its period on. */
  lemma CallStep(b: Books, key: string, p: PeriodId, total: int, first: int, second: int, cash: int)
    requires At(b, first, second, cash) && Free(b, key) && p < 2
    requires 0 < total <= Committed - second && total % PENNY == 0
    ensures JustCreated(Tiny, b, Noticed(key, p, total))
    ensures var after := Execute(Tiny, b, Noticed(key, p, total)).0;
      && At(after, if p == 0 then first + total else first, second + total, cash + total)
      && OpenCall(after, |b.transfers|, total) && |after.transfers| == |b.transfers| + 1
      && after.transfers[..|b.transfers|] == b.transfers
      && after.transfers[|b.transfers|].key == key && after.transfers[|b.transfers|].reverses == None
  {
    hide WorldOk, BusinessOk, Execute, JustCreated, RowsOf, StatementOf, LpAccount, CashAccount, NativeBalance, Posted;
    hide PlanFor, LedgerOk, Linked, PointsBack, NativeOn, BaseIn, KeyIndex, ReversalIndex, Contributed, Created;
    var req := Noticed(key, p, total);
    TinyOk();
    TinyTables();
    TinyShares(total);
    PaidInIsLast(b, first, second, cash);
    CallAccepted(b, key, p, total);
    BooksAreSound(Tiny, b);
    ExecuteKeepsBusiness(Tiny, b, req);
    PlanMadeIff(Tiny, 0, total, 10 * p, true);
    CreatedFrom(Tiny, b, req);
    CallRaisesToDate(Tiny, b, req, 0, 0);
    CallRaisesToDate(Tiny, b, req, 1, 0);
    CallEntries(b, req);
    NativeAppend(b.transfers, NewTransfer(Tiny, b, req), 0);
    NewestIsOpen(b, req);
  }

  lemma CallAccepted(b: Books, key: string, p: PeriodId, total: int)
    requires WorldOk(Tiny) && b.closed == {} && Free(b, key) && p < 2 && CommitmentsOf(Tiny, 0) == Tiny.commitments
    requires 0 < total <= Committed - Contributed(Tiny, b.transfers, 1) && total % PENNY == 0
    requires SharesOf(Tiny, 0, total) == [total] && LpAccount(Tiny, 0, "a") == 1
    requires PeriodFor(Tiny, 0, 0) == 0 && PeriodFor(Tiny, 0, 10) == 1
    ensures JustCreated(Tiny, b, Noticed(key, p, total))
    ensures PeriodFor(Tiny, 0, 10 * p) == p
  {
    hide WorldOk, Execute, JustCreated, RowsOf, LpAccount, KeyIndex, PeriodFor, SharesOf, Contributed;
    assert CommitmentsOf(Tiny, 0)[0] == Tiny.commitments[0];
    CallAcceptedIff(Tiny, b, Noticed(key, p, total));
    assert Tiny.periods[p].start <= 10 * p <= Tiny.periods[p].end;
  }

  /** The entries of an accepted call: its total into cash and to the partner. */
  lemma CallEntries(b: Books, req: Request)
    requires WorldOk(Tiny) && req.Call? && req.fund == 0 && JustCreated(Tiny, b, req)
    requires CashAccount(Tiny, 0) == 0 && LpAccount(Tiny, 0, "a") == 1 && CommitmentsOf(Tiny, 0) == Tiny.commitments
    requires SharesOf(Tiny, 0, req.total) == [req.total]
    ensures Posted(Tiny, b, DraftOf(Tiny, req, SourceOf(b.transfers, req))).Ok?
    ensures var t := NewTransfer(Tiny, b, req);
      && NativeOn(t.entries, 0) == req.total && BaseIn(t.entries, {1}) == -req.total
      && t.kind == CapitalCall && t.reverses == None && t.key == req.key
      && t.period == PeriodFor(Tiny, 0, req.notice)
  {
    hide WorldOk, Execute, Created, Posted, PlanFor, BaseIn, NativeOn, RowsOf, LpAccount, CashAccount, Prepare;
    hide PeriodFor, DraftOf, SharesOf, JustCreated;
    var d := DraftOf(Tiny, req, None);
    AcceptedParts(Tiny, b, req);
    PlanMadeIff(Tiny, 0, req.total, req.notice, true);
    CreatedFrom(Tiny, b, req);
    CalledParts(Tiny, b, req);
    CallDraft(Tiny, req);
    DraftNames(req);
    PostedParts(Tiny, b, d);
    CallCreditsShares(Tiny, b, req, 0);
    PlanPrepares(Tiny, 0, req.total, req.notice, true, d);
    PlanBooksAssets(Tiny, 0, req.total, req.notice, true, d);
    CashOnly(NewTransfer(Tiny, b, req).entries);
  }

  lemma DraftNames(req: Request)
    requires req.Call?
    ensures var d := DraftOf(Tiny, req, None);
      d.key == req.key && d.kind == CapitalCall && d.reverses == None
  {
    hide PlanFor;
  }

  lemma CashOnly(entries: seq<Entry>)
    requires CashAccount(Tiny, 0) == 0 && forall e :: e in entries ==> PlanEntry(Tiny, 0, true, e)
    ensures NativeOn(entries, 0) == BaseIn(entries, Assets(Tiny, 0))
  {
    hide CashAccount, NativeOn, BaseIn;
    NativeIsBase(entries, 0, Assets(Tiny, 0));
  }

  lemma NewestIsOpen(b: Books, req: Request)
    requires BusinessOk(Tiny, Execute(Tiny, b, req).0) && JustCreated(Tiny, b, req)
    ensures var after := Execute(Tiny, b, req).0.transfers;
      |after| == |b.transfers| + 1 && ReversalIndex(after, |b.transfers|) == |after|
  {
    hide BusinessOk, Execute, LedgerOk, Linked, Posted, DraftOf, ReversalIndex, TransfersOk, Created;
    CreatedFrom(Tiny, b, req);
    BooksAreSound(Tiny, Execute(Tiny, b, req).0);
    LedgerParts(Tiny, Execute(Tiny, b, req).0.transfers);
    NothingReversesLast(Tiny, b.transfers, NewTransfer(Tiny, b, req));
  }

  /** Reversing a call that cash can give back is accepted, and counts from the reversal's period on. */
  lemma ReverseStep(b: Books, key: string, j: nat, p: PeriodId, amount: int, first: int, second: int, cash: int)
    requires At(b, first, second, cash) && Free(b, key) && p < 2 && OpenCall(b, j, amount) && amount <= cash
    ensures JustCreated(Tiny, b, Undone(key, j, p))
    ensures var after := Execute(Tiny, b, Undone(key, j, p)).0;
      && At(after, if p == 0 then first - amount else first, second - amount, cash - amount)
      && |after.transfers| == |b.transfers| + 1 && after.transfers[..|b.transfers|] == b.transfers
      && after.transfers[|b.transfers|].key == key && after.transfers[|b.transfers|].reverses == Some(j)
  {
    hide WorldOk, BusinessOk, Execute, JustCreated, RowsOf, StatementOf, LpAccount, CashAccount, NativeBalance, ToDate;
    hide LedgerOk, Linked, PointsBack, NativeOn, KeyIndex, ReversalIndex, ShareAt;
    var req := Undone(key, j, p);
    TinyOk();
    TinyTables();
    BooksAreSound(Tiny, b);
    ReversalAccepted(b, key, j, p, amount, cash);
    ExecuteKeepsBusiness(Tiny, b, req);
    ReversalLowersToDate(Tiny, b, req, 0, 0);
    ReversalLowersToDate(Tiny, b, req, 1, 0);
    ReversalTransfer(b, key, j, p);
    NativeAppend(b.transfers, Execute(Tiny, b, req).0.transfers[|b.transfers|], 0);
  }

  lemma ReversalTransfer(b: Books, key: string, j: nat, p: PeriodId)
    requires LedgerOk(Tiny, b.transfers) && j < |b.transfers| && JustCreated(Tiny, b, Undone(key, j, p))
    ensures var after := Execute(Tiny, b, Undone(key, j, p)).0;
      && |after.transfers| == |b.transfers| + 1 && after.closed == b.closed
      && after.transfers == b.transfers + [after.transfers[|b.transfers|]]
      && after.transfers[|b.transfers|].key == key && after.transfers[|b.transfers|].reverses == Some(j)
      && NativeOn(after.transfers[|b.transfers|].entries, 0) == -NativeOn(b.transfers[j].entries, 0)
  {
    hide Execute, Created, Posted, LedgerOk, NativeOn, JustCreated, Prepare;
    var req := Undone(key, j, p);
    var d := DraftOf(Tiny, req, SourceOf(b.transfers, req));
    CreatedFrom(Tiny, b, req);
    PostedParts(Tiny, b, d);
    ReversalNative(b, d);
  }

  lemma ReversalAccepted(b: Books, key: string, j: nat, p: PeriodId, amount: int, cash: int)
    requires LedgerOk(Tiny, b.transfers) && b.closed == {} && Free(b, key) && p < 2 && OpenCall(b, j, amount)
    requires NativeBalance(b.transfers, 0) == cash >= amount
    ensures JustCreated(Tiny, b, Undone(key, j, p))
  {
    hide LedgerOk, JustCreated, NativeBalance, NativeOn, KeyIndex, ReversalIndex, ShareAt;
    ReversalAcceptedIff(Tiny, b, Undone(key, j, p));
  }

  lemma ReversalNative(b: Books, d: Draft)
    requires LedgerOk(Tiny, b.transfers) && DraftFits(b.transfers, d) && Posted(Tiny, b, d).Ok? && d.reverses.Some?
    ensures d.reverses.value < |b.transfers|
    ensures NativeOn(Posted(Tiny, b, d).value.entries, 0) == -NativeOn(b.transfers[d.reverses.value].entries, 0)
  {
    hide Posted, NativeOn, UniqueKeys, UniqueReversals, CashNonNegative;
    var j := d.reverses.value;
    PostedTransferOk(Tiny, b, d);
    PostedParts(Tiny, b, d);
    assert TransferOk(Tiny, b.transfers[..j], b.transfers[j]);
    FlipNegatesNative(b.transfers[j].entries, 0);
  }

  /** Another key stays free, and another call stays open. */
  lemma Untouched(b: Books, after: Books, key: string, j: nat, amount: int)
    requires |after.transfers| == |b.transfers| + 1 && after.transfers[..|b.transfers|] == b.transfers
    ensures Free(b, key) && after.transfers[|b.transfers|].key != key ==> Free(after, key)
    ensures OpenCall(b, j, amount) && after.transfers[|b.transfers|].reverses != Some(j) ==> OpenCall(after, j, amount)
  {
    hide KeyIndex, ReversalIndex, NativeOn, BaseIn;
    var t := after.transfers[|b.transfers|];
    assert after.transfers == b.transfers + [t];
    if Free(b, key) && t.key != key {
      KeyStaysFree(b.transfers, t, key);
    }
    ReversalIndexAfter(b.transfers, t, j);
  }

  lemma RangeLeft(b: Books, first: int, second: int, cash: int)
    requires At(b, first, second, cash)
    ensures StatementOf(Tiny, b.transfers, 0, 0).unfunded == Committed - first
    ensures StatementOf(Tiny, b.transfers, 1, 0).unfunded == Committed - second
  {
    hide BusinessOk, StatementOf, RowsOf, NativeBalance;
    StatementParts(Tiny, b.transfers, 0, 0);
    StatementParts(Tiny, b.transfers, 1, 0);
  }

  // ---- Three histories -----------------------------------------------------------------------------------

  /** The books after n requests. */
  function After(reqs: seq<Request>, n: nat): Books
    requires n <= |reqs|
  {
    if n == 0 then EmptyBooks else Execute(Tiny, After(reqs, n - 1), reqs[n - 1]).0
  }

  lemma OneMore(reqs: seq<Request>, n: nat)
    requires n < |reqs|
    ensures After(reqs, n + 1) == Execute(Tiny, After(reqs, n), reqs[n]).0
  {
    hide Execute;
  }

  ghost predicate AllAccepted(reqs: seq<Request>) {
    forall n :: 0 <= n < |reqs| ==> JustCreated(Tiny, After(reqs, n), reqs[n])
  }

  const CallAgain := [Noticed("a", 0, Committed), Undone("b", 0, 1), Noticed("c", 0, Committed)]

  /**
   * Negative: a full call in the first period, reversed in the second, leaves room over all periods for another
   * full call in the first, whose statement then shows twice the commitment called.
   */
  lemma UnfundedCanGoNegative()
    ensures WorldOk(Tiny) && AllAccepted(CallAgain) && |CommitmentsOf(Tiny, 0)| == 1
    ensures StatementOf(Tiny, After(CallAgain, 3).transfers, 0, 0).unfunded == -Committed
  {
    hide At, Free, OpenCall, Execute, JustCreated, StatementOf, WorldOk, RowsOf, Noticed, Undone;
    TinyOk();
    TinyTables();
    Nothing();
    var b1, b2, b3 := After(CallAgain, 1), After(CallAgain, 2), After(CallAgain, 3);
    OneMore(CallAgain, 0);
    OneMore(CallAgain, 1);
    OneMore(CallAgain, 2);
    CallStep(EmptyBooks, "a", 0, Committed, 0, 0, 0);
    Untouched(EmptyBooks, b1, "b", 0, 0);
    Untouched(EmptyBooks, b1, "c", 0, 0);
    ReverseStep(b1, "b", 0, 1, Committed, Committed, Committed, Committed);
    Untouched(b1, b2, "c", 0, 0);
    CallStep(b2, "c", 0, Committed, Committed, 0, 0);
    RangeLeft(b3, 2 * Committed, Committed, Committed);
  }

  const ReversedEarly := [Noticed("a", 1, Committed), Undone("b", 0, 0)]

  /** Above the commitment: a call in the second period, reversed in the first, whose statement never saw the call. */
  lemma UnfundedCanExceedCommitment()
    ensures WorldOk(Tiny) && AllAccepted(ReversedEarly) && |CommitmentsOf(Tiny, 0)| == 1
    ensures StatementOf(Tiny, After(ReversedEarly, 2).transfers, 0, 0).unfunded == 2 * Committed
  {
    hide At, Free, OpenCall, Execute, JustCreated, StatementOf, WorldOk, RowsOf, Noticed, Undone;
    TinyOk();
    TinyTables();
    Nothing();
    var b1, b2 := After(ReversedEarly, 1), After(ReversedEarly, 2);
    OneMore(ReversedEarly, 0);
    OneMore(ReversedEarly, 1);
    CallStep(EmptyBooks, "a", 1, Committed, 0, 0, 0);
    Untouched(EmptyBooks, b1, "b", 0, 0);
    ReverseStep(b1, "b", 0, 0, Committed, 0, Committed, Committed);
    RangeLeft(b2, -Committed, 0, 0);
  }

  const Half := 500_000

  const ReversedInPlace := [Noticed("a", 0, Half), Noticed("b", 1, Half), Undone("c", 1, 0), Undone("d", 0, 0)]

  /**
   * Even a reversal posted in its own call's period can leave the range: here every statement is in range until the
   * last request, which reverses the first period's call in the first period.
   */
  lemma ReversalInPlaceCanLeaveRange()
    ensures WorldOk(Tiny) && AllAccepted(ReversedInPlace) && |CommitmentsOf(Tiny, 0)| == 1
    ensures forall n :: 0 <= n <= 3 ==>
      && InRange(Tiny, After(ReversedInPlace, n).transfers, 0, 0)
      && InRange(Tiny, After(ReversedInPlace, n).transfers, 1, 0)
    ensures StatementOf(Tiny, After(ReversedInPlace, 4).transfers, 0, 0).unfunded == Committed + Half
  {
    hide At, Free, OpenCall, Execute, JustCreated, StatementOf, WorldOk, RowsOf, Noticed, Undone, InRange;
    TinyOk();
    TinyTables();
    Nothing();
    var reqs := ReversedInPlace;
    var b1, b2, b3, b4 := After(reqs, 1), After(reqs, 2), After(reqs, 3), After(reqs, 4);
    OneMore(reqs, 0);
    OneMore(reqs, 1);
    OneMore(reqs, 2);
    OneMore(reqs, 3);
    CallStep(EmptyBooks, "a", 0, Half, 0, 0, 0);
    Untouched(EmptyBooks, b1, "b", 0, 0);
    Untouched(EmptyBooks, b1, "c", 0, 0);
    Untouched(EmptyBooks, b1, "d", 0, 0);
    CallStep(b1, "b", 1, Half, Half, Half, Half);
    Untouched(b1, b2, "c", 0, Half);
    Untouched(b1, b2, "d", 0, Half);
    ReverseStep(b2, "c", 1, 0, Half, Half, Committed, Committed);
    Untouched(b2, b3, "d", 0, Half);
    ReverseStep(b3, "d", 0, 0, Half, 0, Half, Half);
    InRangeAt(EmptyBooks, 0, 0, 0);
    InRangeAt(b1, Half, Half, Half);
    InRangeAt(b2, Half, Committed, Committed);
    InRangeAt(b3, 0, Half, Half);
    RangeLeft(b4, -Half, 0, 0);
  }

  lemma InRangeAt(b: Books, first: int, second: int, cash: int)
    requires At(b, first, second, cash) && 0 <= first <= Committed && 0 <= second <= Committed
    ensures |CommitmentsOf(Tiny, 0)| == 1
    ensures InRange(Tiny, b.transfers, 0, 0) && InRange(Tiny, b.transfers, 1, 0)
  {
    hide BusinessOk, StatementOf, RowsOf, NativeBalance;
    StatementParts(Tiny, b.transfers, 0, 0);
    StatementParts(Tiny, b.transfers, 1, 0);
  }
}
