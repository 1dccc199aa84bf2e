/** Locks protect facts: no other transaction's commit undoes what a process has established. */
module Stability {
  import opened Results
  import opened Sums
  import opened Types
  import opened Chart
  import opened Queries
  import opened Posting
  import opened Operations
  import opened Invariants
  import opened Capital
  import opened Commitments
  import opened Machine
  import opened Locks
  import opened Facts
  import Pricing

  /** No lock is held by both in conflict. */
  ghost predicate Apart(w: World, p: Proc, q: Proc) {
    forall l :: Holds(w, p, l) && Holds(w, q, l) ==> !Conflict(p, q, l)
  }

  // ---- The locks a committing process holds --------------------------------------------------------------

  lemma HoldsAt(w: World, p: Proc, k: nat)
    requires p.phase.InTransaction? && k < p.phase.pc && k < |ProgramOf(w, p)| && ProgramOf(w, p)[k].Acquire?
    ensures Holds(w, p, ProgramOf(w, p)[k].lock)
  {
    hide ProgramOf;
  }

  lemma CommitterHoldsClosing(w: World, q: Proc, k: nat)
    requires !q.req.Close? && AtCommit(w, q)
    requires k < |Closing(q.req, DraftOf(w, q.req, q.source))|
    requires Closing(q.req, DraftOf(w, q.req, q.source))[k].Acquire?
    ensures Holds(w, q, Closing(q.req, DraftOf(w, q.req, q.source))[k].lock)
  {
    hide DraftOf, Program, Opening, Closing, LockOrder, Holds;
    ClosingStart(w, q.req, q.source, k);
    HoldsAt(w, q, |Opening(q.req)| + 2 + 2 * |Accounts(w, q.req, q.source)| + k);
  }

  /** A committing posting holds its keys and its period. */
  lemma CommitterHoldsKeys(w: World, q: Proc)
    requires !q.req.Close? && AtCommit(w, q)
    ensures var d := DraftOf(w, q.req, q.source);
      && Holds(w, q, KeyLock(d.key)) && Holds(w, q, PeriodLock(d.period))
      && (d.reverses.Some? ==> Holds(w, q, ReversesLock(d.reverses.value)))
  {
    hide DraftOf, Program, Opening, Closing, LockOrder, Holds, AtCommit;
    var d := DraftOf(w, q.req, q.source);
    ClosingAt(q.req, d);
    CommitterHoldsClosing(w, q, 1);
    if d.reverses.Some? {
      CommitterHoldsClosing(w, q, 2);
    }
    CommitterHoldsClosing(w, q, 2 + if d.reverses.Some? then 1 else 0);
  }

  lemma CommitLength(w: World, q: Proc)
    requires !q.req.Close? && AtCommit(w, q)
    ensures q.phase.pc == |ProgramOf(w, q)| > 0
  {
  }

  /** ... every account it touches ... */
  lemma CommitterHoldsAccount(w: World, q: Proc, a: AccountId)
    requires !q.req.Close? && AtCommit(w, q) && a in Accounts(w, q.req, q.source)
    ensures Holds(w, q, AccountLock(a))
  {
    hide DraftOf, Program, Opening, Closing, LockOrder, Holds;
    var n := |Opening(q.req)|;
    var i :| 0 <= i < |Accounts(w, q.req, q.source)| && Accounts(w, q.req, q.source)[i] == a;
    CommitLength(w, q);
    ProgramAt(w, q.req, q.source, 0);
    ProgramAt(w, q.req, q.source, n + 1 + i);
    HoldsAt(w, q, n + 1 + i);
  }

  /** ... and, if it makes a document, its fund. */
  lemma HoldsFund(w: World, p: Proc)
    requires (p.req.Call? || p.req.Distribute?) && p.phase.InTransaction? && p.phase.pc > 0
    ensures Holds(w, p, FundLock(p.req.fund))
  {
    hide Program, Holds;
    OpeningAt(w, p.req, p.source);
    HoldsAt(w, p, 0);
  }

  // ---- The lock behind a fact ----------------------------------------------------------------------------

  lemma BalanceIsLocked(w: World, p: Proc, k: nat, a: AccountId)
    requires !p.req.Close? && p.phase.InTransaction? && k < p.phase.pc <= |ProgramOf(w, p)|
    requires ProgramOf(w, p)[k] == CheckBalance(a)
    ensures Holds(w, p, AccountLock(a))
  {
    hide DraftOf, Program, LockOrder, Holds;
    var n, m := |Opening(p.req)|, |Accounts(w, p.req, p.source)|;
    ProgramAt(w, p.req, p.source, k);
    ClosingHasNoChecks(p.req, DraftOf(w, p.req, p.source));
    var i := k - n - 2 - m;
    ProgramAt(w, p.req, p.source, n + 1 + i);
    HoldsAt(w, p, n + 1 + i);
  }

  lemma ClosingHasNoChecks(req: Request, d: Draft)
    ensures forall k :: 0 <= k < |Closing(req, d)| ==>
      !Closing(req, d)[k].CheckBalance? && Closing(req, d)[k] != ReadPaidIn && Closing(req, d)[k] != ReadNumber
  {
  }

  lemma ReadIsLocked(w: World, p: Proc, k: nat)
    requires !p.req.Close? && p.phase.InTransaction? && k < p.phase.pc <= |ProgramOf(w, p)|
    requires ProgramOf(w, p)[k] == ReadPaidIn || ProgramOf(w, p)[k] == ReadNumber
    ensures (p.req.Call? || p.req.Distribute?) && Holds(w, p, FundLock(p.req.fund))
  {
    hide DraftOf, Program, LockOrder, Holds;
    ProgramAt(w, p.req, p.source, k);
    ClosingHasNoChecks(p.req, DraftOf(w, p.req, p.source));
    HoldsFund(w, p);
  }

  // ---- What a commit leaves alone ------------------------------------------------------------------------

  /** The transfer a posting is about to commit, and the books it leaves. */
  ghost predicate Commits(w: World, b: Books, q: Proc, t: Transfer) {
    && !q.req.Close? && Ready(w, b, q) && BusinessOk(w, b) && Business(w, q.req)
    && t == Made(DraftOf(w, q.req, q.source), EntriesOf(w, DraftOf(w, q.req, q.source)))
  }

  lemma CommitShape(w: World, b: Books, q: Proc, t: Transfer)
    requires Commits(w, b, q, t)
    ensures Created(w, b, q.req, q.source) == Ok(CommitBooks(w, b, q))
    ensures CommitBooks(w, b, q).transfers == b.transfers + [t] && CommitBooks(w, b, q).closed == b.closed
    ensures TransferOk(w, b.transfers, t) && t.key == q.req.key && t.hash == HashOf(q.req)
    ensures t.reverses.Some? <==> q.req.Reverse?
    ensures t.kind == CapitalCall <==> q.req.Call?
    ensures forall e :: e in t.entries ==> e.account in Accounts(w, q.req, q.source)
  {
    hide Created, CommitBooks, DraftOf, Ready, EntriesOf, Posted, BusinessOk, HashOf, LockOrder;
    var d := DraftOf(w, q.req, q.source);
    ReadyCreates(w, b, q);
    ReadyChecked(w, b, q);
    CheckedPosts(w, b, d);
    CreatedParts(w, b, q.req, q.source);
    DraftKey(w, q.req, q.source);
    BusinessLedger(w, b);
    ReadyFits(w, b, q);
    PostedTransferOk(w, b, d);
    DraftKind(w, q.req, q.source);
    ReadyTouches(w, b, q);
  }

  lemma BusinessLedger(w: World, b: Books)
    requires BusinessOk(w, b)
    ensures LedgerOk(w, b.transfers) && Linked(w, b) && BooksOk(w, b)
    ensures TransfersOk(w, b.transfers) && PointsBack(b.transfers)
  {
    TransfersPointBack(w, b.transfers);
  }

  lemma DraftKind(w: World, req: Request, source: Option<Transfer>)
    requires !req.Close? && Business(w, req)
    ensures DraftOf(w, req, source).kind == CapitalCall <==> req.Call?
    ensures DraftOf(w, req, source).reverses.Some? <==> req.Reverse?
  {
    hide PlanFor;
  }

  lemma ReadyFits(w: World, b: Books, q: Proc)
    requires !q.req.Close? && Ready(w, b, q)
    ensures DraftFits(b.transfers, DraftOf(w, q.req, q.source))
  {
    hide PlanFor, ProgramOf, Established;
  }

  lemma ReadyTouches(w: World, b: Books, q: Proc)
    requires !q.req.Close? && Ready(w, b, q)
    ensures forall e :: e in EntriesOf(w, DraftOf(w, q.req, q.source)) ==> e.account in Accounts(w, q.req, q.source)
  {
    hide DraftOf, Ready, Prepare, ValidLegs, SameFund, LockOrder, Affordable, EntryOk;
    var d := DraftOf(w, q.req, q.source);
    ReadyBody(w, b, q);
    PreparedDraft(w, true, d);
    PreparedEntries(w, true, d);
    var entries := EntriesOf(w, d);
    forall e | e in entries ensures e.account in LockOrder(w, d.legs) {
      var i :| 0 <= i < |entries| && entries[i] == e;
      assert BooksLeg(entries[i], d.legs[i]);
      assert Touches(d.legs, e.account);
    }
  }

  // ---- One fact at a time --------------------------------------------------------------------------------

  lemma KeyStaysFree(ts: seq<Transfer>, t: Transfer, key: string)
    requires KeyIndex(ts, key) == |ts| && t.key != key
    ensures KeyIndex(ts + [t], key) == |ts| + 1
  {
    hide KeyIndex;
    forall i | 0 <= i < |ts| ensures (ts + [t])[i].key != key {
      assert (ts + [t])[i] == ts[i];
    }
  }

  lemma TargetStaysFree(ts: seq<Transfer>, t: Transfer, target: TransferId)
    requires ReversalIndex(ts, target) == |ts| && t.reverses != Some(target)
    ensures ReversalIndex(ts + [t], target) == |ts| + 1
  {
    hide ReversalIndex;
    forall i | 0 <= i < |ts| ensures (ts + [t])[i].reverses != Some(target) {
      assert (ts + [t])[i] == ts[i];
    }
  }

  /** No commit by another process raises the contributions a call was checked against. */
  lemma ContributionDoesNotRise(w: World, b: Books, q: Proc, t: Transfer, fund: FundId, c: Commitment)
    requires WorldOk(w) && Commits(w, b, q, t) && c in CommitmentsOf(w, fund)
    requires q.req.Call? ==> q.req.fund != fund
    ensures var a := LpAccount(w, fund, c.lp);
      Contributed(w, b.transfers + [t], a) <= Contributed(w, b.transfers, a)
  {
    hide WorldOk, Commits, BusinessOk, LedgerOk, Linked, BooksOk, Contributed, TransferOk;
    var a := LpAccount(w, fund, c.lp);
    CommitFacts(w, b, q, t);
    PartnerAccount(w, fund, c);
    if t.reverses.Some? {
      ReversalLowersContribution(w, b, t, a);
    } else if q.req.Call? {
      CommittedCallFund(w, b, q, t);
      OtherFundsTransfer(w, b.transfers, t, a);
    } else {
      TransferPeriod(w, b.transfers, t);
      ContributedAppend(w, b.transfers, t, a);
    }
  }

  lemma TransferPeriod(w: World, ts: seq<Transfer>, t: Transfer)
    requires TransferOk(w, ts, t)
    ensures t.period < |w.periods|
  {
  }

  lemma CommitFacts(w: World, b: Books, q: Proc, t: Transfer)
    requires Commits(w, b, q, t)
    ensures LedgerOk(w, b.transfers) && Linked(w, b) && PointsBack(b.transfers) && TransferOk(w, b.transfers, t)
    ensures t.reverses.Some? <==> q.req.Reverse?
    ensures t.kind == CapitalCall <==> q.req.Call?
  {
    hide BusinessOk, LedgerOk, Linked, BooksOk, TransferOk, Ready;
    CommitShape(w, b, q, t);
    BusinessLedger(w, b);
  }

  lemma CommittedCallFund(w: World, b: Books, q: Proc, t: Transfer)
    requires Commits(w, b, q, t) && q.req.Call?
    ensures t.period < |w.periods| && w.periods[t.period].fund == q.req.fund
  {
    hide BusinessOk, Ready, PlanFor, EntriesOf;
    ReadyOpening(w, b, q);
    CallPeriod(w, q.req);
    ReadySource(w, b, q);
    CallDraft(w, q.req);
  }

  /** Nor its document number: only a holder of the fund lock takes a number of that fund. */
  lemma NumberStays(b: Books, t: Transfer, req: Request, number: nat, other: Request)
    requires other.Call? && req.Call? ==> other.fund != req.fund
    requires other.Distribute? && req.Distribute? ==> other.fund != req.fund
    ensures NextNumber(WithDocument(AddTransfer(b, t), other, number, |b.transfers|), req) == NextNumber(b, req)
  {
    hide LastNumber;
    var after := WithDocument(AddTransfer(b, t), other, number, |b.transfers|);
    if other.Call? && req.Call? {
      assert CallTags(after.calls) == CallTags(b.calls) + [Tag(other.fund, number)];
      OtherFundsNumber(CallTags(b.calls), Tag(other.fund, number), req.fund);
    } else if other.Distribute? && req.Distribute? {
      assert DistributionTags(after.distributions) == DistributionTags(b.distributions) + [Tag(other.fund, number)];
      OtherFundsNumber(DistributionTags(b.distributions), Tag(other.fund, number), req.fund);
    }
  }

  lemma OtherFundsNumber(tags: seq<Tag>, tag: Tag, fund: FundId)
    requires tag.fund != fund
    ensures LastNumber(tags + [tag], fund) == LastNumber(tags, fund)
  {
    assert (tags + [tag])[..|tags|] == tags;
  }

  /** An account no entry touches keeps its native balance. */
  lemma BalanceStays(ts: seq<Transfer>, t: Transfer, a: AccountId)
    requires forall e :: e in t.entries ==> e.account != a
    ensures NativeBalance(ts + [t], a) == NativeBalance(ts, a)
  {
    NativeAppend(ts, t, a);
    UntouchedNative(t.entries, a);
  }

  // ---- Every fact, under every commit --------------------------------------------------------------------

  lemma HeldFact(w: World, p: Proc, k: nat)
    requires p.phase.InTransaction? && k < p.phase.pc <= |ProgramOf(w, p)| && ProgramOf(w, p)[k].Acquire?
    ensures Holds(w, p, ProgramOf(w, p)[k].lock)
  {
    HoldsAt(w, p, k);
  }

  lemma AcquiredStays(w: World, b: Books, q: Proc, t: Transfer, p: Proc, l: Lock)
    requires Commits(w, b, q, t) && !p.req.Close? && Apart(w, p, q) && Holds(w, p, l)
    requires PostingFact(w, b, p, Acquire(l))
    ensures PostingFact(w, CommitBooks(w, b, q), p, Acquire(l))
  {
    hide Commits, CommitBooks, Holds, Apart, PostingFact;
    CommitShape(w, b, q, t);
    CommitterHolds(w, b, q, t);
    var after := CommitBooks(w, b, q);
    match l
    case KeyLock(key) => KeyFactStays(w, b, after, q, t, p, key);
    case ReversesLock(target) => TargetFactStays(w, b, after, q, t, p, target);
    case _ => OpenFactStays(w, b, after, p, l);
  }

  lemma KeyFactStays(w: World, b: Books, after: Books, q: Proc, t: Transfer, p: Proc, key: string)
    requires !p.req.Close? && Apart(w, p, q) && Holds(w, p, KeyLock(key)) && Holds(w, q, KeyLock(t.key))
    requires after.transfers == b.transfers + [t] && PostingFact(w, b, p, Acquire(KeyLock(key)))
    ensures PostingFact(w, after, p, Acquire(KeyLock(key)))
  {
    hide Holds, DraftOf, KeyIndex;
    assert t.key != key;
    KeyStaysFree(b.transfers, t, key);
  }

  lemma TargetFactStays(w: World, b: Books, after: Books, q: Proc, t: Transfer, p: Proc, target: TransferId)
    requires !p.req.Close? && Apart(w, p, q) && Holds(w, p, ReversesLock(target))
    requires t.reverses.Some? ==> Holds(w, q, ReversesLock(t.reverses.value))
    requires after.transfers == b.transfers + [t] && PostingFact(w, b, p, Acquire(ReversesLock(target)))
    ensures PostingFact(w, after, p, Acquire(ReversesLock(target)))
  {
    hide Holds, DraftOf, ReversalIndex;
    assert t.reverses != Some(target);
    TargetStaysFree(b.transfers, t, target);
  }

  lemma OpenFactStays(w: World, b: Books, after: Books, p: Proc, l: Lock)
    requires !p.req.Close? && !l.KeyLock? && !l.ReversesLock?
    requires after.closed == b.closed && PostingFact(w, b, p, Acquire(l))
    ensures PostingFact(w, after, p, Acquire(l))
  {
    hide DraftOf;
  }

  lemma CommitterHolds(w: World, b: Books, q: Proc, t: Transfer)
    requires Commits(w, b, q, t)
    ensures Holds(w, q, KeyLock(t.key)) && Holds(w, q, PeriodLock(t.period))
    ensures t.reverses.Some? ==> Holds(w, q, ReversesLock(t.reverses.value))
    ensures forall e :: e in t.entries ==> Holds(w, q, AccountLock(e.account))
    ensures (q.req.Call? || q.req.Distribute?) ==> Holds(w, q, FundLock(q.req.fund))
  {
    hide BusinessOk, DraftOf, EntriesOf, Holds, SourceOk, Established, Accounts;
    CommitShape(w, b, q, t);
    CommitterHoldsKeys(w, q);
    CommitLength(w, q);
    forall e | e in t.entries ensures Holds(w, q, AccountLock(e.account)) {
      CommitterHoldsAccount(w, q, e.account);
    }
    if q.req.Call? || q.req.Distribute? {
      HoldsFund(w, q);
    }
  }

  lemma PaidInStays(w: World, b: Books, q: Proc, t: Transfer, req: Request)
    requires WorldOk(w) && Commits(w, b, q, t) && PlanError(w, b.transfers, req).None?
    requires req.Call? && q.req.Call? ==> q.req.fund != req.fund
    ensures PlanError(w, b.transfers + [t], req).None?
  {
    hide WorldOk, Commits, PlanFor, Contributed;
    if req.Call? {
      var shares := PlanFor(w, req.fund, req.total, req.notice, true).value.shares;
      var cs := CommitmentsOf(w, req.fund);
      forall i | 0 <= i < |cs| && i < |shares|
        ensures shares[i] <= cs[i].committed - Contributed(w, b.transfers + [t], LpAccount(w, req.fund, cs[i].lp))
      {
        assert cs[i] in cs;
        ContributionDoesNotRise(w, b, q, t, req.fund, cs[i]);
      }
    }
  }

  /** Two makers of documents never work on one fund at a time. */
  lemma FundsApart(w: World, p: Proc, q: Proc)
    requires Apart(w, p, q) && (p.req.Call? || p.req.Distribute?) && (q.req.Call? || q.req.Distribute?)
    requires Holds(w, p, FundLock(p.req.fund)) && Holds(w, q, FundLock(q.req.fund))
    ensures p.req.fund != q.req.fund
  {
    hide Holds;
  }

  lemma BooksAfter(w: World, b: Books, q: Proc, t: Transfer, req: Request)
    requires Commits(w, b, q, t)
    requires q.req.Call? && req.Call? ==> q.req.fund != req.fund
    requires q.req.Distribute? && req.Distribute? ==> q.req.fund != req.fund
    ensures NextNumber(CommitBooks(w, b, q), req) == NextNumber(b, req)
  {
    hide BusinessOk, Ready, NextNumber, DraftOf, EntriesOf;
    NumberStays(b, t, req, q.number, q.req);
  }

  /** A posting's commit undoes no fact of another posting. */
  lemma PostingFactStays(w: World, b: Books, q: Proc, t: Transfer, p: Proc, k: nat)
    requires WorldOk(w) && Commits(w, b, q, t) && !p.req.Close? && Apart(w, p, q)
    requires p.phase.InTransaction? && k < p.phase.pc <= |ProgramOf(w, p)|
    requires PostingFact(w, b, p, ProgramOf(w, p)[k])
    ensures PostingFact(w, CommitBooks(w, b, q), p, ProgramOf(w, p)[k])
  {
    hide WorldOk, Commits, CommitBooks, DraftOf, Holds, ProgramOf, PlanError, NextNumber;
    hide Prepare, EntriesOf, NativeBalance;
    hide Apart;
    CommitShape(w, b, q, t);
    CommitterHolds(w, b, q, t);
    match ProgramOf(w, p)[k]
    case Acquire(l) =>
      HeldFact(w, p, k);
      AcquiredStays(w, b, q, t, p, l);
    case ReadPaidIn =>
      ReadIsLocked(w, p, k);
      if q.req.Call? { FundsApart(w, p, q); }
      PaidInStays(w, b, q, t, p.req);
    case ReadNumber =>
      ReadIsLocked(w, p, k);
      if q.req.Call? || q.req.Distribute? { FundsApart(w, p, q); }
      BooksAfter(w, b, q, t, p.req);
    case CheckBalance(a) =>
      BalanceIsLocked(w, p, k, a);
      AccountsApart(w, p, q, t, a);
      BalanceStays(b.transfers, t, a);
    case _ =>
  }

  lemma AccountsApart(w: World, p: Proc, q: Proc, t: Transfer, a: AccountId)
    requires Apart(w, p, q) && Holds(w, p, AccountLock(a))
    requires forall e :: e in t.entries ==> Holds(w, q, AccountLock(e.account))
    ensures forall e :: e in t.entries ==> e.account != a
  {
    hide Holds;
  }

  lemma CloserHolds(w: World, p: Proc, k: nat)
    requires p.req.Close? && p.phase.InTransaction? && k < p.phase.pc <= |ProgramOf(w, p)|
    ensures Holds(w, p, PeriodLock(p.req.closing))
  {
    assert ProgramOf(w, p)[0] == Acquire(PeriodLock(p.req.closing));
    HoldsAt(w, p, 0);
  }

  /** A posting's commit undoes no fact of a closer: the closer has the period to itself. */
  lemma ClosingFactStays(w: World, b: Books, q: Proc, t: Transfer, p: Proc, k: nat)
    requires Commits(w, b, q, t) && p.req.Close? && Apart(w, p, q)
    requires p.phase.InTransaction? && k < p.phase.pc <= |ProgramOf(w, p)|
    requires ClosingFact(w, b, p, ProgramOf(w, p)[k])
    ensures ClosingFact(w, CommitBooks(w, b, q), p, ProgramOf(w, p)[k])
  {
    hide Commits, CommitBooks, Holds, ProgramOf, PeriodImbalance, ClosingFact, Apart;
    CommitShape(w, b, q, t);
    CommitterHolds(w, b, q, t);
    CloserHolds(w, p, k);
    PeriodsApart(w, p, q, t);
    PeriodImbalanceStays(w, b, q, t, p.req.closing);
    ClosingFactDependsOn(w, b, CommitBooks(w, b, q), p, ProgramOf(w, p)[k]);
  }

  lemma ClosingFactDependsOn(w: World, b: Books, after: Books, p: Proc, instr: Instr)
    requires p.req.Close? && after.closed == b.closed && ClosingFact(w, b, p, instr)
    requires PeriodImbalance(w, after.transfers, p.req.closing) == PeriodImbalance(w, b.transfers, p.req.closing)
    ensures ClosingFact(w, after, p, instr)
  {
    hide PeriodImbalance, EarlierClosed;
  }

  lemma PeriodsApart(w: World, p: Proc, q: Proc, t: Transfer)
    requires p.req.Close? && Apart(w, p, q)
    requires Holds(w, p, PeriodLock(p.req.closing)) && Holds(w, q, PeriodLock(t.period))
    ensures t.period != p.req.closing
  {
    hide Holds;
  }

  lemma PeriodImbalanceStays(w: World, b: Books, q: Proc, t: Transfer, period: PeriodId)
    requires Commits(w, b, q, t) && t.period != period
    ensures PeriodImbalance(w, b.transfers + [t], period) == PeriodImbalance(w, b.transfers, period)
  {
    hide Commits, LedgerOk, Linked, TransferOk, BaseSum, PointsBack;
    CommitFacts(w, b, q, t);
    UnrelatedTransfer(b.transfers, t, AllAccounts(w), {period}, AllKinds);
  }

  /** A close commits over nothing another process relies on. */
  lemma FactStaysUnderClose(w: World, b: Books, q: Proc, p: Proc, k: nat)
    requires q.req.Close? && AtCommit(w, q) && Apart(w, p, q)
    requires p.phase.InTransaction? && k < p.phase.pc <= |ProgramOf(w, p)|
    requires Fact(w, b, p, ProgramOf(w, p)[k])
    ensures Fact(w, CommitBooks(w, b, q), p, ProgramOf(w, p)[k])
  {
    hide DraftOf, Holds, BaseSum, PlanError, NextNumber, Prepare, Affordable, EntriesOf, PositiveRows, PlanOf;
    hide KeyIndex, ReversalIndex, ValidLegs, TransferRowError, DocumentError;
    CloserHolds(w, q, 0);
    if ProgramOf(w, p)[k].Acquire? {
      HeldFact(w, p, k);
    }
    CloseKeepsNumbers(b, q.req.closing, p.req);
  }

  lemma CloseKeepsNumbers(b: Books, period: PeriodId, req: Request)
    ensures NextNumber(b.(closed := b.closed + {period}), req) == NextNumber(b, req)
  {
  }
}
