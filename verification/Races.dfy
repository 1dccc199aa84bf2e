/** Lost races are replayed, or refused by name; a violated unique key never surfaces (ledger/idempotency.py). */
module Races {
  import opened Results
  import opened Types
  import opened Chart
  import opened Queries
  import opened Posting
  import opened Operations
  import opened Invariants
  import opened Commitments
  import opened Machine
  import opened Locks
  import opened Facts
  import opened Serializability
  import opened Safety
  import opened Completeness

  /** A reread follows a lost race on the key or a business error, and no answer is a violated unique constraint. */
  predicate RaceFree(p: Proc) {
    match p.phase
    case Rereading(e) => e.IsLedgerError() || e == IntegrityError(IdempotencyKeyUnique)
    case Finished(Failed(e)) => e != IntegrityError(IdempotencyKeyUnique) && e != IntegrityError(ReversesUnique)
    case _ => true
  }

  /** Only a reversal inserts a row whose target must be unique. */
  lemma AttemptReversesError(w: World, b: Books, p: Proc, k: nat)
    requires !p.req.Close? && k < |ProgramOf(w, p)|
    requires Attempt(w, b, p, ProgramOf(w, p)[k]) == Err(IntegrityError(ReversesUnique))
    ensures p.req.Reverse?
  {
    hide Program, DraftOf, Attempt, LockOrder, Opening;
    var instr := ProgramOf(w, p)[k];
    ReversesErrorAtLock(w, b, p, instr);
    ProgramAt(w, p.req, p.source, k);
    ClosingAt(p.req, DraftOf(w, p.req, p.source));
    NoReversesInOpening(p.req);
    DraftTarget(w, p.req, p.source);
  }

  lemma ReversesErrorAtLock(w: World, b: Books, p: Proc, instr: Instr)
    requires !p.req.Close? && Attempt(w, b, p, instr) == Err(IntegrityError(ReversesUnique))
    ensures instr.Acquire? && instr.lock.ReversesLock?
  {
    hide DraftOf, KeyIndex, ReversalIndex, ValidLegs, NextNumber, Affordable, EntriesOf, PositiveRows, CommitmentsAllow;
    PrepareError(w, p.sawOpen, DraftOf(w, p.req, p.source));
  }

  lemma NoReversesInOpening(req: Request)
    ensures forall k :: 0 <= k < |Opening(req)| && Opening(req)[k].Acquire? ==> Opening(req)[k].lock.FundLock?
  {
  }

  lemma DraftTarget(w: World, req: Request, source: Option<Transfer>)
    requires !req.Close?
    ensures DraftOf(w, req, source).reverses.Some? <==> req.Reverse?
  {
    hide HashOf, PlanFor;
  }

  lemma MovedStaysRaceFree(w: World, b: Books, p: Proc)
    requires RaceFree(p)
    ensures RaceFree(Moved(w, b, p))
  {
    hide ProgramOf, Attempt, KeyIndex, ReversalIndex, HashOf, PeriodImbalance, EarlierClosed;
    if p.phase.InTransaction? && p.phase.pc < |ProgramOf(w, p)| && !p.req.Close? {
      var result := Attempt(w, b, p, ProgramOf(w, p)[p.phase.pc]);
      if result == Err(IntegrityError(ReversesUnique)) {
        AttemptReversesError(w, b, p, p.phase.pc);
      }
    }
  }

  lemma SpawnedIsRaceFree(w: World, b: Books, req: Request, stale: bool)
    ensures RaceFree(SpawnedProc(w, b, req, stale))
  {
    hide ValidLegs;
  }

  lemma AbortedIsRaceFree(p: Proc, retryable: bool)
    ensures RaceFree(Aborted(p, retryable))
  {
    hide ValidLegs;
  }

  lemma {:induction false} RunIsRaceFree(w: World, actions: seq<Action>)
    ensures forall t :: t in Run(w, actions).procs ==> RaceFree(Run(w, actions).procs[t])
  {
    hide RaceFree, Moved, SpawnedProc, Aborted, Blocked, CommitBooks, AtCommit;
    if actions != [] {
      var earlier, a := actions[..|actions| - 1], actions[|actions| - 1];
      var s := Run(w, earlier);
      RunIsRaceFree(w, earlier);
      match a
      case Spawn(t, req, stale) => SpawnedIsRaceFree(w, s.books, req, stale);
      case Step(t) => if t in s.procs { MovedStaysRaceFree(w, s.books, s.procs[t]); }
      case Fail(t, retryable) => if t in s.procs { AbortedIsRaceFree(s.procs[t], retryable); }
    }
  }

  /** In no run does a request end on a unique key or a unique target: such a race ends in a replay or by name. */
  lemma RacesNeverSurface(w: World, actions: seq<Action>, t: Tid, e: Error)
    requires t in Run(w, actions).procs && Run(w, actions).procs[t].phase == Finished(Failed(e))
    ensures e != IntegrityError(IdempotencyKeyUnique) && e != IntegrityError(ReversesUnique)
  {
    hide Run;
    RunIsRaceFree(w, actions);
  }

  /**
   * A business error is answered only while the request's key is still free: had a duplicate committed meanwhile,
   * the answer would be its replay, or a conflict.
   */
  lemma BusinessErrorMeansFreeKey(w: World, actions: seq<Action>, t: Tid, e: Error)
    requires WorldOk(w) && BusinessActions(w, actions)
    requires t in Run(w, actions).procs && !Run(w, actions).procs[t].req.Close?
    requires Run(w, actions).procs[t].phase.InTransaction? || Run(w, actions).procs[t].phase.Rereading?
    requires var r := Next(w, Run(w, actions), Step(t)); r.procs[t].phase == Finished(Failed(e))
    ensures var ts, key := Run(w, actions).books.transfers, Run(w, actions).procs[t].req.key;
      e.IsLedgerError() && !e.IdempotencyConflict? ==> KeyIndex(ts, key) == |ts|
  {
    hide WorldOk, Run, KeyIndex, BusinessOk, Exclusive, Serial, ProgramOf, Attempt, ReversalIndex, HashOf;
    RunsAreReachable(w, actions);
    var s := Run(w, actions);
    var p := s.procs[t];
    assert Moved(w, s.books, p).phase == Finished(Failed(e));
    if p.phase.InTransaction? && p.phase.pc < |ProgramOf(w, p)| {
      var result := Attempt(w, s.books, p, ProgramOf(w, p)[p.phase.pc]);
      if result == Err(IntegrityError(ReversesUnique)) {
        TargetIsCheckedAfterKey(w, s.books, p);
      }
    }
  }

  lemma TargetIsCheckedAfterKey(w: World, b: Books, p: Proc)
    requires ProcOk(w, b, p) && !p.req.Close? && p.phase.InTransaction? && p.phase.pc < |ProgramOf(w, p)|
    requires Attempt(w, b, p, ProgramOf(w, p)[p.phase.pc]) == Err(IntegrityError(ReversesUnique))
    ensures KeyIndex(b.transfers, p.req.key) == |b.transfers|
  {
    hide ProgramOf, DraftOf, Attempt, LockOrder, Opening, Closing, ProcOk, KeyIndex;
    var k := p.phase.pc;
    ReversesErrorAtLock(w, b, p, ProgramOf(w, p)[k]);
    AttemptReversesError(w, b, p, k);
    TargetFollowsKey(w, p, k);
    FactBelow(w, b, p, k - 1);
  }

  lemma TargetFollowsKey(w: World, p: Proc, k: nat)
    requires !p.req.Close? && k < |ProgramOf(w, p)| && ProgramOf(w, p)[k].Acquire?
    requires ProgramOf(w, p)[k].lock.ReversesLock?
    ensures k > 0 && ProgramOf(w, p)[k - 1] == Acquire(KeyLock(p.req.key))
  {
    hide Program, DraftOf, LockOrder, Opening;
    ProgramAt(w, p.req, p.source, k);
    NoReversesInOpening(p.req);
    ClosingAt(p.req, DraftOf(w, p.req, p.source));
    DraftKey(w, p.req, p.source);
    ProgramAt(w, p.req, p.source, k - 1);
  }
}
