/** Lock order: every transaction takes its locks along one global order, so no set of transactions can deadlock. */
module Locks {
  import opened Results
  import opened Types
  import opened Posting
  import opened Operations
  import opened Machine

  /** The global order: fund, accounts by ascending id, idempotency key, reverses key, period. */
  function Class(l: Lock): nat {
    match l
    case FundLock(_) => 0
    case AccountLock(_) => 1
    case KeyLock(_) => 2
    case ReversesLock(_) => 3
    case PeriodLock(_) => 4
  }

  predicate Before(l: Lock, m: Lock) {
    Class(l) < Class(m) || (l.AccountLock? && m.AccountLock? && l.account < m.account)
  }

  // ---- Where the instructions of a program stand ---------------------------------------------------------

  function Accounts(w: World, req: Request, source: Option<Transfer>): seq<AccountId>
    requires !req.Close?
  {
    LockOrder(w, DraftOf(w, req, source).legs)
  }

  /** The instruction at position k, section by section. */
  lemma ProgramAt(w: World, req: Request, source: Option<Transfer>, k: nat)
    requires !req.Close? && k < |Program(w, req, source)|
    ensures var n, m := |Opening(req)|, |Accounts(w, req, source)|;
      var c := Closing(req, DraftOf(w, req, source));
      var prog := Program(w, req, source);
      && |prog| == n + 2 + 2 * m + |c|
      && prog[k] == if k < n then Opening(req)[k]
         else if k == n then Validate
         else if k < n + 1 + m then Acquire(AccountLock(Accounts(w, req, source)[k - n - 1]))
         else if k == n + 1 + m then CheckContext
         else if k < n + 2 + 2 * m then CheckBalance(Accounts(w, req, source)[k - n - 2 - m])
         else c[k - n - 2 - 2 * m]
  {
    hide DraftOf, LockOrder, Opening, Closing;
  }

  lemma ClosingAt(req: Request, d: Draft)
    ensures var c := Closing(req, d);
      var r := if d.reverses.Some? then 1 else 0;
      && |c| == 4 + r + (if req.Call? || req.Distribute? then 1 else 0)
      && c[0] == InsertTransfer && c[1] == Acquire(KeyLock(d.key))
      && (d.reverses.Some? ==> c[2] == Acquire(ReversesLock(d.reverses.value)))
      && c[2 + r] == Acquire(PeriodLock(d.period)) && c[3 + r] == InsertEntries
      && (req.Call? || req.Distribute? ==> c[4 + r] == InsertDocument)
  {
  }

  lemma ClosingAscends(req: Request, d: Draft, i: nat, j: nat)
    requires i < j < |Closing(req, d)| && Closing(req, d)[i].Acquire? && Closing(req, d)[j].Acquire?
    ensures Before(Closing(req, d)[i].lock, Closing(req, d)[j].lock)
    ensures Class(Closing(req, d)[i].lock) >= 2
  {
    ClosingAt(req, d);
  }

  lemma ClosingClass(req: Request, d: Draft, j: nat)
    requires j < |Closing(req, d)| && Closing(req, d)[j].Acquire?
    ensures Class(Closing(req, d)[j].lock) >= 2
  {
    ClosingAt(req, d);
  }

  /** A program takes its locks in strictly ascending order. */
  lemma ProgramAscends(w: World, req: Request, source: Option<Transfer>, i: nat, j: nat)
    requires i < j < |Program(w, req, source)|
    requires Program(w, req, source)[i].Acquire? && Program(w, req, source)[j].Acquire?
    ensures Before(Program(w, req, source)[i].lock, Program(w, req, source)[j].lock)
  {
    hide DraftOf, LockOrder, Closing, Opening, Before, Class, Program;
    if req.Close? {
      CloserAcquiresFirst(w, req, source, j);
    } else {
      ProgramAt(w, req, source, i);
      ProgramAt(w, req, source, j);
      var d := DraftOf(w, req, source);
      var start := |Opening(req)| + 2 + 2 * |Accounts(w, req, source)|;
      if i >= start {
        ClosingAscends(req, d, i - start, j - start);
      } else {
        AcquiredBefore(w, req, source, i);
        if j >= start {
          ClosingClass(req, d, j - start);
          LowerClassFirst(Program(w, req, source)[i].lock, Program(w, req, source)[j].lock);
        } else {
          OpeningThenAccounts(w, req, source, i, j);
        }
      }
    }
  }

  lemma CloserAcquiresFirst(w: World, req: Request, source: Option<Transfer>, k: nat)
    requires req.Close? && k < |Program(w, req, source)| && Program(w, req, source)[k].Acquire?
    ensures k == 0
  {
  }

  /** Before its inserts, a program takes its fund first of all, and then its accounts. */
  lemma AcquiredBefore(w: World, req: Request, source: Option<Transfer>, k: nat)
    requires !req.Close? && k < |Program(w, req, source)| && Program(w, req, source)[k].Acquire?
    requires k < |Opening(req)| + 2 + 2 * |Accounts(w, req, source)|
    ensures var n, accounts := |Opening(req)|, Accounts(w, req, source);
      if k < n then k == 0 && Program(w, req, source)[k].lock.FundLock?
      else n < k < n + 1 + |accounts| && Program(w, req, source)[k].lock == AccountLock(accounts[k - n - 1])
  {
    hide DraftOf, LockOrder, Closing, Program;
    ProgramAt(w, req, source, k);
  }

  lemma LowerClassFirst(l: Lock, m: Lock)
    requires (l.FundLock? || l.AccountLock?) && Class(m) >= 2
    ensures Before(l, m)
  {
  }

  lemma OpeningThenAccounts(w: World, req: Request, source: Option<Transfer>, i: nat, j: nat)
    requires !req.Close? && i < j < |Program(w, req, source)|
    requires Program(w, req, source)[i].Acquire? && Program(w, req, source)[j].Acquire?
    requires j < |Opening(req)| + 2 + 2 * |Accounts(w, req, source)|
    ensures Before(Program(w, req, source)[i].lock, Program(w, req, source)[j].lock)
  {
    hide DraftOf, LockOrder, Closing, Program, Opening;
    AcquiredBefore(w, req, source, i);
    AcquiredBefore(w, req, source, j);
  }

  // ---- Mutual exclusion ----------------------------------------------------------------------------------

  ghost predicate Exclusive(w: World, s: State) {
    forall t, u, l :: t in s.procs && u in s.procs && t != u && Holds(w, s.procs[t], l) && Holds(w, s.procs[u], l) ==>
      !Conflict(s.procs[t], s.procs[u], l)
  }

  /** A step keeps the locks its process holds, or lets them all go, or adds the one it wanted. */
  lemma StepLocks(w: World, b: Books, p: Proc, l: Lock)
    requires Holds(w, Moved(w, b, p), l)
    ensures Holds(w, p, l) || Wants(w, p, l)
  {
    hide ProgramOf, StepInside, Replayed, ReverseError, CommitResponse;
    if p.phase.InTransaction? && p.phase.pc < |ProgramOf(w, p)| {
      InsideLocks(w, p, StepInside(w, b, p), l);
    }
  }

  lemma TakenStep(program: seq<Instr>, pc: nat, l: Lock)
    requires Taken(program, pc + 1, l)
    ensures Taken(program, pc, l) || (pc < |program| && program[pc] == Acquire(l))
  {
  }

  lemma InsideLocks(w: World, p: Proc, q: Proc, l: Lock)
    requires p.phase.InTransaction? && p.phase.pc < |ProgramOf(w, p)|
    requires q.req == p.req && q.source == p.source && q.phase == InTransaction(p.phase.pc + 1) && Holds(w, q, l)
    ensures Holds(w, p, l) || Wants(w, p, l)
  {
    TakenStep(ProgramOf(w, p), p.phase.pc, l);
  }

  lemma WantedIsFree(w: World, s: State, t: Tid, u: Tid, l: Lock)
    requires t in s.procs && u in s.procs && t != u && !Blocked(w, s, t)
    requires Wants(w, s.procs[t], l) && Holds(w, s.procs[u], l)
    ensures !Conflict(s.procs[t], s.procs[u], l)
  {
    if Conflict(s.procs[t], s.procs[u], l) {
      assert WaitsFor(w, s, t, u);
    }
  }

  /** In every step of every process, no lock comes to be held in conflict. */
  lemma NextKeepsExclusive(w: World, s: State, a: Action)
    requires Exclusive(w, s)
    ensures Exclusive(w, Next(w, s, a))
  {
    var r := Next(w, s, a);
    forall t, u, l | t in r.procs && u in r.procs && t != u && Holds(w, r.procs[t], l) && Holds(w, r.procs[u], l)
      ensures !Conflict(r.procs[t], r.procs[u], l)
    {
      NoConflictAfter(w, s, a, t, u, l);
    }
  }

  lemma FreshHoldsNothing(w: World, b: Books, req: Request, stale: bool, l: Lock)
    ensures !Holds(w, SpawnedProc(w, b, req, stale), l)
  {
  }

  lemma AbortedHoldsNothing(w: World, p: Proc, retryable: bool, l: Lock)
    ensures !Holds(w, Aborted(p, retryable), l)
  {
  }

  lemma NoConflictAfter(w: World, s: State, a: Action, t: Tid, u: Tid, l: Lock)
    requires Exclusive(w, s)
    requires var r := Next(w, s, a);
      t in r.procs && u in r.procs && t != u && Holds(w, r.procs[t], l) && Holds(w, r.procs[u], l)
    ensures var r := Next(w, s, a); !Conflict(r.procs[t], r.procs[u], l)
  {
    hide Holds, Moved, Aborted, SpawnedProc, CommitBooks, Wants, Blocked;
    match a
    case Spawn(v, req, stale) => FreshHoldsNothing(w, s.books, req, stale, l);
    case Fail(v, retryable) => if v in s.procs { AbortedHoldsNothing(w, s.procs[v], retryable, l); }
    case Step(v) =>
      if v in s.procs && !Blocked(w, s, v) && (v == t || v == u) {
        StepLocks(w, s.books, s.procs[v], l);
        var other := if v == t then u else t;
        if Wants(w, s.procs[v], l) {
          WantedIsFree(w, s, v, other, l);
        }
      }
  }

  // ---- Deadlock freedom ----------------------------------------------------------------------------------

  function WantedLock(w: World, p: Proc): Lock
    requires p.phase.InTransaction? && p.phase.pc < |ProgramOf(w, p)| && ProgramOf(w, p)[p.phase.pc].Acquire?
  {
    ProgramOf(w, p)[p.phase.pc].lock
  }

  /** Nobody waits for a period but a closer, or a posting while a closer holds it. */
  lemma PostingsShareAPeriod(w: World, s: State, t: Tid, u: Tid)
    requires WaitsFor(w, s, t, u) && WantedLock(w, s.procs[t]).PeriodLock?
    ensures s.procs[t].req.Close? || s.procs[u].req.Close?
  {
  }

  /** Along a wait, the wanted lock moves strictly up the global order. */
  lemma WaitsGoUp(w: World, s: State, t: Tid, u: Tid, v: Tid)
    requires WaitsFor(w, s, t, u) && WaitsFor(w, s, u, v)
    ensures Before(WantedLock(w, s.procs[t]), WantedLock(w, s.procs[u]))
  {
    var q := s.procs[u];
    var l := WantedLock(w, s.procs[t]);
    var k :| 0 <= k < q.phase.pc && k < |ProgramOf(w, q)| && ProgramOf(w, q)[k] == Acquire(l);
    ProgramAscends(w, q.req, q.source, k, q.phase.pc);
  }

  ghost predicate WaitPath(w: World, s: State, path: seq<Tid>) {
    forall i :: 0 <= i < |path| - 1 ==> WaitsFor(w, s, path[i], path[i + 1])
  }

  predicate Waiting(w: World, p: Proc) {
    p.phase.InTransaction? && p.phase.pc < |ProgramOf(w, p)| && ProgramOf(w, p)[p.phase.pc].Acquire?
  }

  lemma BeforeTransitive(l: Lock, m: Lock, n: Lock)
    requires Before(l, m) && Before(m, n)
    ensures Before(l, n) && l != n
  {
  }

  lemma {:induction false} PathGoesUp(w: World, s: State, path: seq<Tid>, last: Tid)
    requires |path| >= 2 && WaitPath(w, s, path) && WaitsFor(w, s, path[|path| - 1], last)
    ensures path[0] in s.procs && Waiting(w, s.procs[path[0]])
    ensures Before(WantedLock(w, s.procs[path[0]]), WantedLock(w, s.procs[path[|path| - 1]]))
    decreases |path|
  {
    hide ProgramOf, Holds, Before;
    var n := |path| - 1;
    assert WaitsFor(w, s, path[n - 1], path[n]);
    WaitsGoUp(w, s, path[n - 1], path[n], last);
    if n > 1 {
      var front := path[..n];
      forall i | 0 <= i < |front| - 1 ensures WaitsFor(w, s, front[i], front[i + 1]) {
        assert WaitsFor(w, s, path[i], path[i + 1]);
      }
      PathGoesUp(w, s, front, path[n]);
      BeforeTransitive(WantedLock(w, s.procs[path[0]]), WantedLock(w, s.procs[path[n - 1]]),
                       WantedLock(w, s.procs[path[n]]));
    }
  }

  /** No cycle of waiting transactions exists. */
  lemma WaitsForIsAcyclic(w: World, s: State, path: seq<Tid>)
    requires |path| >= 2 && WaitPath(w, s, path)
    ensures path[0] != path[|path| - 1]
  {
    var n := |path| - 1;
    assert WaitsFor(w, s, path[0], path[1]);
    if n >= 2 && path[0] == path[n] {
      PathGoesUp(w, s, path, path[1]);
    }
  }
}
