/**
 * No overdraft, for requests of any kind: a balance read under its account's lock is still the committed balance
 * when the reader commits (ledger/services.py).
 */
module Overdrafts {
  import opened Results
  import opened Sums
  import opened Types
  import opened Queries
  import opened Posting
  import opened Operations
  import opened Invariants
  import opened Machine
  import opened Locks
  import opened Facts
  import opened Stability

  /** What a posting needs to remember: its entries are prepared, and the balances it has checked still allow them. */
  ghost predicate BalanceFact(w: World, b: Books, p: Proc, instr: Instr)
    requires !p.req.Close?
  {
    instr == CheckContext || instr.CheckBalance? ==> PostingFact(w, b, p, instr)
  }

  ghost predicate BalancesChecked(w: World, b: Books, p: Proc) {
    !p.req.Close? && p.phase.InTransaction? ==>
      p.phase.pc <= |ProgramOf(w, p)| && forall k :: 0 <= k < p.phase.pc ==> BalanceFact(w, b, p, ProgramOf(w, p)[k])
  }

  ghost predicate CashSafe(w: World, s: State) {
    && Exclusive(w, s) && CashNonNegative(w, s.books.transfers)
    && forall t :: t in s.procs ==> BalancesChecked(w, s.books, s.procs[t])
  }

  // ---- A process's own step ------------------------------------------------------------------------------

  lemma OwnStepKeepsBalances(w: World, b: Books, p: Proc)
    requires BalancesChecked(w, b, p)
    ensures BalancesChecked(w, b, Moved(w, b, p))
  {
    hide ProgramOf, StepInside, ReverseError, KeyIndex, Replayed, BalanceFact;
    if p.phase.InTransaction? && p.phase.pc < |ProgramOf(w, p)| && !p.req.Close? {
      StepKeepsBalances(w, b, p);
    }
  }

  lemma StepKeepsBalances(w: World, b: Books, p: Proc)
    requires !p.req.Close? && p.phase.InTransaction? && p.phase.pc < |ProgramOf(w, p)| && BalancesChecked(w, b, p)
    ensures BalancesChecked(w, b, StepInside(w, b, p))
  {
    hide Program, PostingFact, Attempt;
    var instr := ProgramOf(w, p)[p.phase.pc];
    if Attempt(w, b, p, instr).Ok? {
      var q := Attempt(w, b, p, instr).value;
      AttemptEstablishes(w, b, p, instr);
      forall k | 0 <= k <= p.phase.pc ensures BalanceFact(w, b, Advance(q), ProgramOf(w, p)[k]) {
        var earlier := ProgramOf(w, p)[k];
        if earlier == CheckContext || earlier.CheckBalance? {
          if k < p.phase.pc {
            assert BalanceFact(w, b, p, earlier);
            EarlierFactsSurviveOwnStep(w, b, p, instr, earlier);
          }
          SameFact(w, b, q, Advance(q), earlier);
        }
      }
    }
  }

  lemma SameFact(w: World, b: Books, p: Proc, q: Proc, instr: Instr)
    requires !p.req.Close? && q.req == p.req && q.source == p.source && PostingFact(w, b, p, instr)
    requires instr == CheckContext || instr.CheckBalance?
    ensures PostingFact(w, b, q, instr)
  {
    hide Prepare, DraftOf, EntriesOf, Affordable;
  }

  // ---- Somebody else's commit ----------------------------------------------------------------------------

  /** A process at its commit has prepared its entries and checked every account they touch. */
  lemma CommitterChecked(w: World, b: Books, q: Proc)
    requires !q.req.Close? && AtCommit(w, q) && BalancesChecked(w, b, q)
    ensures Prepare(w, true, DraftOf(w, q.req, q.source)).Ok?
    ensures forall i :: 0 <= i < |Accounts(w, q.req, q.source)| ==>
      Affordable(w, b.transfers, EntriesOf(w, DraftOf(w, q.req, q.source)), Accounts(w, q.req, q.source)[i])
  {
    hide DraftOf, Program, Opening, Closing, Prepare, EntriesOf, Affordable, LockOrder;
    var n, m := |Opening(q.req)|, |Accounts(w, q.req, q.source)|;
    CommitLength(w, q);
    ProgramAt(w, q.req, q.source, 0);
    ProgramAt(w, q.req, q.source, n + 1 + m);
    assert BalanceFact(w, b, q, ProgramOf(w, q)[n + 1 + m]);
    forall i | 0 <= i < m
      ensures Affordable(w, b.transfers, EntriesOf(w, DraftOf(w, q.req, q.source)), Accounts(w, q.req, q.source)[i])
    {
      ProgramAt(w, q.req, q.source, n + 2 + m + i);
      assert BalanceFact(w, b, q, ProgramOf(w, q)[n + 2 + m + i]);
    }
  }

  lemma EntriesAreLocked(w: World, b: Books, q: Proc)
    requires !q.req.Close? && AtCommit(w, q) && BalancesChecked(w, b, q)
    ensures forall e :: e in EntriesOf(w, DraftOf(w, q.req, q.source)) ==> e.account in Accounts(w, q.req, q.source)
  {
    hide DraftOf, Prepare, ValidLegs, SameFund, LockOrder, Affordable, EntryOk, AtCommit, BalancesChecked;
    var d := DraftOf(w, q.req, q.source);
    CommitterChecked(w, b, q);
    PreparedDraft(w, true, d);
    PreparedEntries(w, true, d);
    var entries := EntriesOf(w, d);
    forall e | e in entries ensures e.account in LockOrder(w, d.legs) {
      var i :| 0 <= i < |entries| && entries[i] == e;
      assert BooksLeg(entries[i], d.legs[i]);
      assert Touches(d.legs, e.account);
    }
  }

  lemma CommittedTransfers(w: World, b: Books, q: Proc)
    ensures CommitBooks(w, b, q).transfers == if q.req.Close? then b.transfers
      else b.transfers + [Made(DraftOf(w, q.req, q.source), EntriesOf(w, DraftOf(w, q.req, q.source)))]
  {
    hide DraftOf, EntriesOf;
  }

  /** A commit overdraws nobody. */
  lemma CommitKeepsCash(w: World, b: Books, q: Proc)
    requires AtCommit(w, q) && BalancesChecked(w, b, q) && CashNonNegative(w, b.transfers)
    ensures CashNonNegative(w, CommitBooks(w, b, q).transfers)
  {
    hide DraftOf, EntriesOf, CommitBooks, AtCommit, BalancesChecked, NativeBalance, NativeOn, Accounts;
    CommittedTransfers(w, b, q);
    if !q.req.Close? {
      var t := Made(DraftOf(w, q.req, q.source), EntriesOf(w, DraftOf(w, q.req, q.source)));
      CommitterChecked(w, b, q);
      EntriesAreLocked(w, b, q);
      forall a | 0 <= a < |w.accounts| && w.accounts[a].kind == Cash
        ensures NativeBalance(b.transfers + [t], a) >= 0
      {
        NativeAppend(b.transfers, t, a);
        if a in Accounts(w, q.req, q.source) {
          assert Affordable(w, b.transfers, t.entries, a);
        } else {
          UntouchedNative(t.entries, a);
        }
      }
    }
  }

  /** Nor does it move a balance that another process has checked under its lock. */
  lemma CommitKeepsBalances(w: World, b: Books, q: Proc, p: Proc)
    requires AtCommit(w, q) && BalancesChecked(w, b, q) && BalancesChecked(w, b, p) && Apart(w, p, q)
    ensures BalancesChecked(w, CommitBooks(w, b, q), p)
  {
    hide ProgramOf, CommitBooks, BalanceFact, AtCommit, Apart, Accounts, Holds, DraftOf, EntriesOf;
    CommittedTransfers(w, b, q);
    if !p.req.Close? && p.phase.InTransaction? {
      forall k | 0 <= k < p.phase.pc ensures BalanceFact(w, CommitBooks(w, b, q), p, ProgramOf(w, p)[k]) {
        assert BalanceFact(w, b, p, ProgramOf(w, p)[k]);
        if !q.req.Close? {
          BalanceFactStays(w, b, q, p, k);
        } else {
          SameTransfersSameFact(w, b, CommitBooks(w, b, q), p, ProgramOf(w, p)[k]);
        }
      }
    }
  }

  lemma SameTransfersSameFact(w: World, b: Books, after: Books, p: Proc, instr: Instr)
    requires !p.req.Close? && BalanceFact(w, b, p, instr) && after.transfers == b.transfers
    ensures BalanceFact(w, after, p, instr)
  {
    hide Prepare, DraftOf, EntriesOf, Affordable;
  }

  lemma BalanceFactStays(w: World, b: Books, q: Proc, p: Proc, k: nat)
    requires !q.req.Close? && AtCommit(w, q) && BalancesChecked(w, b, q) && Apart(w, p, q) && !p.req.Close?
    requires p.phase.InTransaction? && k < p.phase.pc <= |ProgramOf(w, p)|
    requires BalanceFact(w, b, p, ProgramOf(w, p)[k])
    ensures BalanceFact(w, CommitBooks(w, b, q), p, ProgramOf(w, p)[k])
  {
    hide CommitBooks, Program, DraftOf, EntriesOf, Prepare, AtCommit, BalancesChecked, Accounts, Holds, Apart;
    hide NativeBalance, NativeOn;
    CommittedTransfers(w, b, q);
    var t := Made(DraftOf(w, q.req, q.source), EntriesOf(w, DraftOf(w, q.req, q.source)));
    if ProgramOf(w, p)[k].CheckBalance? {
      var a := ProgramOf(w, p)[k].account;
      BalanceIsLocked(w, p, k, a);
      EntriesAreLocked(w, b, q);
      forall e | e in t.entries ensures Holds(w, q, AccountLock(e.account)) {
        CommitterHoldsAccount(w, q, e.account);
      }
      AccountsApart(w, p, q, t, a);
      BalanceStays(b.transfers, t, a);
    }
  }

  // ---- Every run -----------------------------------------------------------------------------------------

  lemma NextKeepsCashSafe(w: World, s: State, a: Action)
    requires CashSafe(w, s)
    ensures CashSafe(w, Next(w, s, a))
  {
    hide Exclusive, CashNonNegative, BalancesChecked, Moved, CommitBooks, Aborted, SpawnedProc, Blocked, AtCommit;
    NextKeepsExclusive(w, s, a);
    match a
    case Spawn(t, req, stale) => SpawnedUnchecked(w, s.books, req, stale);
    case Fail(t, retryable) => if t in s.procs { AbortedUnchecked(w, s.books, s.procs[t], retryable); }
    case Step(t) =>
      if t in s.procs && !Blocked(w, s, t) {
        var p := s.procs[t];
        if AtCommit(w, p) {
          CommitKeepsCash(w, s.books, p);
          CommitterLeaves(w, s.books, CommitBooks(w, s.books, p), p);
          forall u | u in s.procs && u != t ensures BalancesChecked(w, CommitBooks(w, s.books, p), s.procs[u]) {
            ApartFrom(w, s, t, u);
            CommitKeepsBalances(w, s.books, p, s.procs[u]);
          }
        } else {
          OwnStepKeepsBalances(w, s.books, p);
        }
      }
  }

  lemma ApartFrom(w: World, s: State, t: Tid, u: Tid)
    requires Exclusive(w, s) && t in s.procs && u in s.procs && t != u
    ensures Apart(w, s.procs[u], s.procs[t])
  {
    hide Holds, Conflict;
  }

  lemma SpawnedUnchecked(w: World, b: Books, req: Request, stale: bool)
    ensures BalancesChecked(w, b, SpawnedProc(w, b, req, stale))
  {
    hide Program, ValidLegs;
  }

  lemma AbortedUnchecked(w: World, b: Books, p: Proc, retryable: bool)
    requires BalancesChecked(w, b, p)
    ensures BalancesChecked(w, b, Aborted(p, retryable))
  {
    hide Program, ValidLegs, BalanceFact;
  }

  lemma CommitterLeaves(w: World, b: Books, after: Books, p: Proc)
    requires AtCommit(w, p)
    ensures BalancesChecked(w, after, Moved(w, b, p))
  {
    hide Program, BalanceFact;
  }

  lemma {:induction false} RunsAreCashSafe(w: World, actions: seq<Action>)
    ensures CashSafe(w, Run(w, actions))
  {
    hide Next, CashSafe;
    if actions == [] {
      StartIsCashSafe(w);
    } else {
      var n := |actions| - 1;
      RunsAreCashSafe(w, actions[..n]);
      NextKeepsCashSafe(w, Run(w, actions[..n]), actions[n]);
    }
  }

  lemma StartIsCashSafe(w: World)
    ensures CashSafe(w, Start)
  {
  }

  /** No cash account is overdrawn in any state of any run, whatever is posted. */
  lemma NoOverdraft(w: World, actions: seq<Action>, a: AccountId)
    requires a < |w.accounts| && w.accounts[a].kind == Cash
    ensures NativeBalance(Run(w, actions).books.transfers, a) >= 0
  {
    hide Run, NativeBalance, Exclusive, BalancesChecked;
    RunsAreCashSafe(w, actions);
  }
}
