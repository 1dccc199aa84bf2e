/**
 * The machine accepts what the serial operations accept: a request that meets nobody in a transaction answers, and
 * commits, exactly what it would run alone; so every serial run is the outcome of some interleaved one.
 */
module Completeness {
  import opened Results
  import opened Types
  import opened Chart
  import opened Queries
  import opened Posting
  import opened Operations
  import opened Invariants
  import opened Commitments
  import opened Machine
  import opened Locks
  import opened Facts
  import opened Stability
  import opened Serializability
  import opened Safety
  import opened Progress
  import opened Acceptance
  import Allocation

  /** Nobody but t is in a transaction. */
  ghost predicate Alone(s: State, t: Tid) {
    forall u :: u in s.procs && u != t ==> !s.procs[u].phase.InTransaction?
  }

  /** n statements of one process. */
  function Steps(w: World, s: State, t: Tid, n: nat): State
    decreases n
  {
    if n == 0 then s else Steps(w, Next(w, s, Step(t)), t, n - 1)
  }

  lemma StepAlone(w: World, s: State, t: Tid)
    requires Alone(s, t) && t in s.procs
    ensures var r, p := Next(w, s, Step(t)), s.procs[t];
      && r.procs == s.procs[t := Moved(w, s.books, p)] && Alone(r, t)
      && r.books == if AtCommit(w, p) then CommitBooks(w, s.books, p) else s.books
  {
    hide ProgramOf, Moved, CommitBooks;
    assert !Blocked(w, s, t);
  }

  /** t has finished with the answer and the books of its request run alone, and nobody else has moved. */
  ghost predicate Served(w: World, s: State, t: Tid, req: Request, r: State) {
    && Reachable(w, r) && r.books == Execute(w, s.books, req).0
    && t in r.procs && r.procs == s.procs[t := r.procs[t]]
    && r.procs[t].phase == Finished(Execute(w, s.books, req).1)
  }

  // ---- What a lone posting knows -------------------------------------------------------------------------

  /** Everything its earlier reads have shown still holds, and the period status it has read is the present one. */
  ghost predicate Lone(w: World, b: Books, p: Proc) {
    && !p.req.Close? && p.phase.InTransaction?
    && KeyIndex(b.transfers, p.req.key) == |b.transfers|
    && (p.req.PostLegs? ==> ValidLegs(p.req.legs))
    && (p.req.Reverse? ==> ReverseError(b.transfers, p.req.target, p.req.key).None?)
    && (p.req.PostLegs? || p.req.Reverse? || p.phase.pc >= 2 ==>
          p.sawOpen == (DraftOf(w, p.req, p.source).period !in b.closed))
    && (p.phase.pc >= |Opening(p.req)| + 2 + |Accounts(w, p.req, p.source)| ==> p.sawOpen)
  }

  lemma OnlyReadPeriodLearnsStatus(w: World, b: Books, p: Proc, instr: Instr)
    requires !p.req.Close? && Attempt(w, b, p, instr).Ok? && instr != ReadPeriod
    ensures Attempt(w, b, p, instr).value.sawOpen == p.sawOpen
  {
    hide Prepare, DraftOf, EntriesOf, Affordable, PlanError, NextNumber, KeyIndex, ReversalIndex, ValidLegs;
  }

  lemma ReadPeriodLearnsStatus(w: World, b: Books, p: Proc)
    requires (p.req.Call? || p.req.Distribute?) && Attempt(w, b, p, ReadPeriod).Ok?
    ensures Attempt(w, b, p, ReadPeriod).value.sawOpen == (DraftOf(w, p.req, p.source).period !in b.closed)
  {
    hide PlanFor, HashOf;
  }

  lemma LoneStepStaysLone(w: World, b: Books, p: Proc)
    requires Lone(w, b, p) && p.phase.pc < |ProgramOf(w, p)| && Attempt(w, b, p, ProgramOf(w, p)[p.phase.pc]).Ok?
    ensures Lone(w, b, Advance(Attempt(w, b, p, ProgramOf(w, p)[p.phase.pc]).value))
  {
    hide Program, Attempt, DraftOf, ReverseError, KeyIndex, ValidLegs, LockOrder, Opening;
    var pc := p.phase.pc;
    var instr := ProgramOf(w, p)[pc];
    OpeningLength(p.req);
    if p.req.Call? || p.req.Distribute? {
      OpeningAt(w, p.req, p.source);
      if pc == 1 {
        ReadPeriodLearnsStatus(w, b, p);
      }
    }
    if instr != ReadPeriod {
      OnlyReadPeriodLearnsStatus(w, b, p, instr);
    } else {
      StatusIsReadFirst(w, p, pc);
    }
    if pc == |Opening(p.req)| + 1 + |Accounts(w, p.req, p.source)| {
      ProgramAt(w, p.req, p.source, pc);
      ContextNeedsOpen(w, b, p);
    }
  }

  lemma ContextNeedsOpen(w: World, b: Books, p: Proc)
    requires !p.req.Close? && Attempt(w, b, p, CheckContext).Ok?
    ensures p.sawOpen
  {
    hide DraftOf, Prepare;
    PreparedDraft(w, p.sawOpen, DraftOf(w, p.req, p.source));
  }

  lemma StatusIsReadFirst(w: World, p: Proc, k: nat)
    requires !p.req.Close? && k < |ProgramOf(w, p)| && ProgramOf(w, p)[k] == ReadPeriod
    ensures (p.req.Call? || p.req.Distribute?) && k == 1
  {
    hide DraftOf, Program, LockOrder;
    ProgramAt(w, p.req, p.source, k);
    ClosingAt(p.req, DraftOf(w, p.req, p.source));
    ClosingHasNoStatus(p.req, DraftOf(w, p.req, p.source));
  }

  lemma ClosingHasNoStatus(req: Request, d: Draft)
    ensures forall k :: 0 <= k < |Closing(req, d)| ==> Closing(req, d)[k] != ReadPeriod
  {
  }

  // ---- Why a statement fails -----------------------------------------------------------------------------

  lemma FactBelow(w: World, b: Books, p: Proc, k: nat)
    requires !p.req.Close? && ProcOk(w, b, p) && p.phase.InTransaction? && k < p.phase.pc
    ensures k < |ProgramOf(w, p)| && PostingFact(w, b, p, ProgramOf(w, p)[k])
  {
    hide ProgramOf, PostingFact, SourceOk, Business;
    assert Fact(w, b, p, ProgramOf(w, p)[k]);
  }

  /** Past its opening, a posting has made its plan. */
  lemma PlannedPastOpening(w: World, b: Books, p: Proc)
    requires !p.req.Close? && ProcOk(w, b, p) && p.phase.InTransaction? && p.phase.pc >= |Opening(p.req)|
    ensures PlanError(w, b.transfers, p.req).None?
  {
    hide Program, PlanFor, CommitmentsAllow, ProcOk, DraftOf, NextNumber;
    if p.req.Call? || p.req.Distribute? {
      OpeningAt(w, p.req, p.source);
      FactBelow(w, b, p, 1);
      FactBelow(w, b, p, 2);
    }
  }

  /** Past its context check, its entries are prepared. */
  lemma PreparedPastContext(w: World, b: Books, p: Proc)
    requires !p.req.Close? && ProcOk(w, b, p) && p.phase.InTransaction?
    requires p.phase.pc >= |Opening(p.req)| + 2 + |Accounts(w, p.req, p.source)|
    ensures Prepare(w, true, DraftOf(w, p.req, p.source)).Ok?
  {
    hide Program, Opening, Closing, DraftOf, LockOrder, Prepare, ProcOk;
    var k := |Opening(p.req)| + 1 + |Accounts(w, p.req, p.source)|;
    FactBelow(w, b, p, k);
    ProgramAt(w, p.req, p.source, k);
  }

  /** Past its balance checks, every account can afford it. */
  lemma SufficientPastChecks(w: World, b: Books, p: Proc)
    requires !p.req.Close? && ProcOk(w, b, p) && p.phase.InTransaction?
    requires p.phase.pc >= |Opening(p.req)| + 2 + 2 * |Accounts(w, p.req, p.source)|
    ensures var d := DraftOf(w, p.req, p.source);
      Prepare(w, true, d).Ok? && Sufficient(w, b.transfers, d, Prepare(w, true, d).value)
  {
    hide Program, Opening, Closing, DraftOf, LockOrder, Prepare, ProcOk, Affordable;
    var n, m := |Opening(p.req)|, |Accounts(w, p.req, p.source)|;
    PreparedPastContext(w, b, p);
    var d := DraftOf(w, p.req, p.source);
    forall i | 0 <= i < |LockOrder(w, d.legs)|
      ensures Affordable(w, b.transfers, Prepare(w, true, d).value, LockOrder(w, d.legs)[i])
    {
      FactBelow(w, b, p, n + 2 + m + i);
      ProgramAt(w, p.req, p.source, n + 2 + m + i);
    }
  }

  /** Past its transfer row, that row passes its own checks. */
  lemma RowPastInsert(w: World, b: Books, p: Proc)
    requires !p.req.Close? && ProcOk(w, b, p) && p.phase.InTransaction?
    requires p.phase.pc > |Opening(p.req)| + 2 + 2 * |Accounts(w, p.req, p.source)|
    ensures TransferRowError(DraftOf(w, p.req, p.source)).None?
  {
    hide Program, Opening, Closing, DraftOf, LockOrder, ProcOk, TransferRowError;
    var start := |Opening(p.req)| + 2 + 2 * |Accounts(w, p.req, p.source)|;
    FactBelow(w, b, p, start);
    ProgramAt(w, p.req, p.source, start);
    ClosingAt(p.req, DraftOf(w, p.req, p.source));
  }

  /** The fact behind an insert of the closing part that has been passed. */
  lemma ClosingFactBelow(w: World, b: Books, p: Proc, k: nat)
    requires !p.req.Close? && ProcOk(w, b, p) && p.phase.InTransaction?
    requires k < |Closing(p.req, DraftOf(w, p.req, p.source))|
    requires p.phase.pc > |Opening(p.req)| + 2 + 2 * |Accounts(w, p.req, p.source)| + k
    ensures PostingFact(w, b, p, Closing(p.req, DraftOf(w, p.req, p.source))[k])
  {
    hide Program, Opening, Closing, DraftOf, LockOrder, ProcOk, PostingFact;
    var start := |Opening(p.req)| + 2 + 2 * |Accounts(w, p.req, p.source)|;
    FactBelow(w, b, p, start + k);
    ClosingStart(w, p.req, p.source, k);
  }

  lemma ValidDraft(w: World, b: Books, p: Proc)
    requires Lone(w, b, p) && ProcOk(w, b, p) && LedgerOk(w, b.transfers) && !p.req.Call? && !p.req.Distribute?
    ensures ValidLegs(DraftOf(w, p.req, p.source).legs)
  {
    hide ValidLegs, Program, Established, KeyIndex, ReversalIndex, LedgerOk;
    if p.req.Reverse? {
      var t := b.transfers[p.req.target];
      SoundTransfer(w, b.transfers, p.req.target);
      FlippedLegsValid(w, w.periods[t.period].fund, t.entries);
    }
  }

  lemma PlannedPeriodExists(w: World, b: Books, p: Proc)
    requires (p.req.Call? || p.req.Distribute?) && PlanError(w, b.transfers, p.req).None?
    ensures DraftOf(w, p.req, p.source).period < |w.periods|
  {
    hide CommitmentsAllow, HashOf, Allocation.Allocated, ShareLegs;
  }

  /** A statement of the opening fails with the plan's own error. */
  lemma OpeningError(w: World, b: Books, p: Proc, e: Error)
    requires !p.req.Close? && p.phase.InTransaction? && p.phase.pc < |Opening(p.req)|
    requires p.phase.pc < |ProgramOf(w, p)| && Attempt(w, b, p, ProgramOf(w, p)[p.phase.pc]) == Err(e)
    ensures PlanError(w, b.transfers, p.req) == Some(e)
  {
    hide Program, Attempt, PlanError, LockOrder;
    OpeningAt(w, p.req, p.source);
    PlanningError(w, b, p, ProgramOf(w, p)[p.phase.pc], e);
  }

  lemma PlanningError(w: World, b: Books, p: Proc, instr: Instr, e: Error)
    requires p.req.Call? || p.req.Distribute?
    requires instr == Acquire(FundLock(p.req.fund)) || instr == ReadPeriod || instr == ReadPaidIn || instr == ReadNumber
    requires Attempt(w, b, p, instr) == Err(e)
    ensures PlanError(w, b.transfers, p.req) == Some(e)
  {
    hide PlanFor, CommitmentsAllow, DraftOf, NextNumber;
  }

  /** The engine's checks before any balance is read fail as `Prepare` does. */
  lemma ContextError(w: World, b: Books, p: Proc, e: Error)
    requires Lone(w, b, p) && ProcOk(w, b, p) && LedgerOk(w, b.transfers)
    requires |Opening(p.req)| <= p.phase.pc < |Opening(p.req)| + 2 + |Accounts(w, p.req, p.source)|
    requires p.phase.pc < |ProgramOf(w, p)| && Attempt(w, b, p, ProgramOf(w, p)[p.phase.pc]) == Err(e)
    ensures var d := DraftOf(w, p.req, p.source); Prepare(w, d.period !in b.closed, d) == Err(e)
  {
    hide Program, Opening, Closing, DraftOf, LockOrder, ProcOk, LedgerOk, KeyIndex, ReverseError, PlanError;
    var n, m, pc := |Opening(p.req)|, |Accounts(w, p.req, p.source)|, p.phase.pc;
    ProgramAt(w, p.req, p.source, pc);
    OpeningLength(p.req);
    if pc == n {
      if p.req.Call? || p.req.Distribute? {
        PlannedPastOpening(w, b, p);
        PlannedPeriodExists(w, b, p);
        InvalidLegsRefused(w, DraftOf(w, p.req, p.source).period !in b.closed, DraftOf(w, p.req, p.source));
      } else {
        ValidDraft(w, b, p);
      }
    }
  }

  lemma OpeningLength(req: Request)
    ensures |Opening(req)| >= if req.Call? || req.Distribute? then 2 else 0
  {
  }

  lemma InvalidLegsRefused(w: World, open: bool, d: Draft)
    requires d.period < |w.periods| && !ValidLegs(d.legs)
    ensures Prepare(w, open, d) == Err(InvalidTransfer)
  {
  }

  /** After them, with its entries prepared, the posting fails as `Posted` does. */
  lemma EngineError(w: World, b: Books, p: Proc, e: Error)
    requires Lone(w, b, p) && ProcOk(w, b, p)
    requires |Opening(p.req)| + 2 + |Accounts(w, p.req, p.source)| <= p.phase.pc
    requires p.phase.pc < |ProgramOf(w, p)| && Attempt(w, b, p, ProgramOf(w, p)[p.phase.pc]) == Err(e)
    ensures var d := DraftOf(w, p.req, p.source);
      Posted(w, b, d) == Err(e) || (Posted(w, b, d).Ok? && DocumentError(p.req) == Some(e))
  {
    hide Program, Opening, Closing, DraftOf, LockOrder, ProcOk, KeyIndex, ReverseError, Prepare, Affordable;
    hide PositiveRows, TransferRowError, ReversalIndex;
    var n, m, pc := |Opening(p.req)|, |Accounts(w, p.req, p.source)|, p.phase.pc;
    var d := DraftOf(w, p.req, p.source);
    ProgramAt(w, p.req, p.source, pc);
    OpeningLength(p.req);
    PreparedPastContext(w, b, p);
    assert p.sawOpen && d.period !in b.closed;
    if pc < n + 2 + 2 * m {
      assert !Affordable(w, b.transfers, Prepare(w, true, d).value, LockOrder(w, d.legs)[pc - n - 2 - m]);
    } else {
      SufficientPastChecks(w, b, p);
      InsertError(w, b, p, pc - n - 2 - 2 * m, e);
    }
  }

  lemma InsertError(w: World, b: Books, p: Proc, k: nat, e: Error)
    requires Lone(w, b, p) && ProcOk(w, b, p) && k < |Closing(p.req, DraftOf(w, p.req, p.source))|
    requires p.phase.pc == |Opening(p.req)| + 2 + 2 * |Accounts(w, p.req, p.source)| + k
    requires Attempt(w, b, p, Closing(p.req, DraftOf(w, p.req, p.source))[k]) == Err(e)
    requires var d := DraftOf(w, p.req, p.source);
      d.period !in b.closed && Prepare(w, true, d).Ok? && Sufficient(w, b.transfers, d, Prepare(w, true, d).value)
    ensures var d := DraftOf(w, p.req, p.source);
      Posted(w, b, d) == Err(e) || (Posted(w, b, d).Ok? && DocumentError(p.req) == Some(e))
  {
    hide Program, Opening, Closing, DraftOf, LockOrder, ProcOk, KeyIndex, ReverseError, Prepare, Sufficient;
    hide PositiveRows, TransferRowError, ReversalIndex, ValidLegs, Attempt, Posted, DocumentError, EntriesOf;
    var d := DraftOf(w, p.req, p.source);
    var r := if d.reverses.Some? then 1 else 0;
    ClosingAt(p.req, d);
    DraftKey(w, p.req, p.source);
    if k > 0 {
      RowPastInsert(w, b, p);
    }
    if k > 2 && d.reverses.Some? {
      ClosingFactBelow(w, b, p, 2);
    }
    if k > 3 + r {
      ClosingFactBelow(w, b, p, 3 + r);
    }
    InsertFails(w, b, p, k, e);
  }

  lemma InsertFails(w: World, b: Books, p: Proc, k: nat, e: Error)
    requires !p.req.Close? && k < |Closing(p.req, DraftOf(w, p.req, p.source))|
    requires Attempt(w, b, p, Closing(p.req, DraftOf(w, p.req, p.source))[k]) == Err(e)
    requires var d := DraftOf(w, p.req, p.source);
      var r := if d.reverses.Some? then 1 else 0;
      && d.period !in b.closed && Prepare(w, true, d).Ok? && Sufficient(w, b.transfers, d, Prepare(w, true, d).value)
      && KeyIndex(b.transfers, d.key) == |b.transfers|
      && (k > 0 ==> TransferRowError(d).None?)
      && (k > 2 && d.reverses.Some? ==> ReversalIndex(b.transfers, d.reverses.value) == |b.transfers|)
      && (k > 3 + r ==> PositiveRows(EntriesOf(w, d)))
    ensures var d := DraftOf(w, p.req, p.source);
      Posted(w, b, d) == Err(e) || (Posted(w, b, d).Ok? && DocumentError(p.req) == Some(e))
  {
    hide Closing, DraftOf, KeyIndex, Prepare, Sufficient, PositiveRows, TransferRowError, ReversalIndex;
    hide DocumentError, ValidLegs, Affordable, PlanError;
    ClosingAt(p.req, DraftOf(w, p.req, p.source));
  }

  /** A posting that fails at a statement fails with the error its create closure would raise. */
  lemma ErrorIsSerial(w: World, b: Books, p: Proc, e: Error)
    requires Lone(w, b, p) && ProcOk(w, b, p) && LedgerOk(w, b.transfers)
    requires p.phase.pc < |ProgramOf(w, p)| && Attempt(w, b, p, ProgramOf(w, p)[p.phase.pc]) == Err(e)
    ensures Created(w, b, p.req, p.source) == Err(e)
  {
    hide ProgramOf, Opening, DraftOf, Accounts, ProcOk, LedgerOk, Attempt, PlanError, DocumentError, Prepare;
    hide Sufficient, KeyIndex, TransferRowError, PositiveRows, ReverseFree, ReverseError, ValidLegs;
    if p.phase.pc < |Opening(p.req)| {
      OpeningError(w, b, p, e);
    } else {
      PlannedPastOpening(w, b, p);
      if p.phase.pc < |Opening(p.req)| + 2 + |Accounts(w, p.req, p.source)| {
        ContextError(w, b, p, e);
      } else {
        EngineError(w, b, p, e);
      }
    }
  }

  /** So the request run alone fails, and reports the same. */
  lemma FailsSerially(w: World, b: Books, p: Proc, e: Error)
    requires Lone(w, b, p) && p.source == SourceOf(b.transfers, p.req) && Created(w, b, p.req, p.source) == Err(e)
    ensures Execute(w, b, p.req) == (b, Failed(ReportedError(p.req, e)))
  {
    hide Created, KeyIndex, ReversalIndex, ValidLegs, DraftOf, Opening, LockOrder;
  }

  lemma KeyErrorNeedsKey(w: World, b: Books, p: Proc, e: Error)
    requires Lone(w, b, p) && p.phase.pc < |ProgramOf(w, p)|
    requires Attempt(w, b, p, ProgramOf(w, p)[p.phase.pc]) == Err(e)
    ensures e != IntegrityError(IdempotencyKeyUnique)
  {
    hide Program, DraftOf, KeyIndex, Attempt, ReverseError, Opening, LockOrder, ValidLegs;
    if e == IntegrityError(IdempotencyKeyUnique) {
      AttemptKeyError(w, b, p, ProgramOf(w, p)[p.phase.pc]);
      KeyOfProgram(w, p, p.phase.pc);
    }
  }

  // ---- Running alone to the end --------------------------------------------------------------------------

  /** A statement that succeeds, and is not the commit, leaves the posting alone and one statement nearer its end. */
  lemma LoneStep(w: World, s: State, t: Tid)
    requires WorldOk(w) && Reachable(w, s) && Alone(s, t) && t in s.procs && Lone(w, s.books, s.procs[t])
    requires !AtCommit(w, s.procs[t])
    requires s.procs[t].phase.pc < |ProgramOf(w, s.procs[t])|
    requires Attempt(w, s.books, s.procs[t], ProgramOf(w, s.procs[t])[s.procs[t].phase.pc]).Ok?
    ensures var r := Next(w, s, Step(t));
      && Reachable(w, r) && Alone(r, t) && r.books == s.books && t in r.procs && r.procs == s.procs[t := r.procs[t]]
      && Lone(w, r.books, r.procs[t]) && r.procs[t].req == s.procs[t].req
      && Ahead(w, r.procs[t]) < Ahead(w, s.procs[t])
  {
    hide WorldOk, Reachable, Next, Alone, Lone, AtCommit, Ahead, Moved, ProgramOf, Attempt, ProcOk, Steps;
    hide BusinessOk, LedgerOk;
    var p := s.procs[t];
    StepAlone(w, s, t);
    NextReachable(w, s, Step(t));
    ReachableProc(w, s, t);
    LoneInside(w, s.books, p);
    StepIsInside(w, s.books, p);
    LoneStepStaysLone(w, s.books, p);
    GetsAhead(w, s.books, p);
  }

  /** From inside its transaction, a lone posting runs to the answer and the books of its request run alone. */
  lemma {:induction false} PostingRunsAlone(w: World, s: State, t: Tid) returns (n: nat)
    requires WorldOk(w) && Reachable(w, s) && Alone(s, t) && t in s.procs && Lone(w, s.books, s.procs[t])
    ensures Served(w, s, t, s.procs[t].req, Steps(w, s, t, n))
    decreases Ahead(w, s.procs[t])
  {
    hide WorldOk, Reachable, Next, Alone, Lone, AtCommit, Ahead, Served, Moved, ProgramOf, Attempt, ProcOk;
    hide BusinessOk, LedgerOk, KeyIndex;
    var p, r := s.procs[t], Next(w, s, Step(t));
    ReachableProc(w, s, t);
    if AtCommit(w, p) {
      n := 1;
      CommitServes(w, s, t);
      OneStep(w, s, t);
    } else {
      LoneInside(w, s.books, p);
      var result := Attempt(w, s.books, p, ProgramOf(w, p)[p.phase.pc]);
      if result.Ok? {
        LoneStep(w, s, t);
        var m := PostingRunsAlone(w, r, t);
        n := m + 1;
        ServedFromNext(w, s, t, Steps(w, r, t, m));
      } else {
        n := FailureRunsAlone(w, s, t, result.error);
      }
    }
  }

  lemma OneStep(w: World, s: State, t: Tid)
    ensures Steps(w, s, t, 1) == Next(w, s, Step(t))
    ensures Steps(w, s, t, 2) == Next(w, Next(w, s, Step(t)), Step(t))
  {
    hide Next;
    assert Steps(w, Next(w, s, Step(t)), t, 0) == Next(w, s, Step(t));
    assert Steps(w, Next(w, Next(w, s, Step(t)), Step(t)), t, 0) == Next(w, Next(w, s, Step(t)), Step(t));
  }

  lemma ReachableProc(w: World, s: State, t: Tid)
    requires Reachable(w, s) && t in s.procs
    ensures ProcOk(w, s.books, s.procs[t]) && BusinessOk(w, s.books) && LedgerOk(w, s.books.transfers)
  {
    hide ProcOk, LedgerOk, Linked, Replayable, WithinCommitments, OffGp, Exclusive, Serial;
  }

  lemma LoneInside(w: World, b: Books, p: Proc)
    requires Lone(w, b, p) && ProcOk(w, b, p) && !AtCommit(w, p)
    ensures !p.req.Close? && p.phase.InTransaction? && p.phase.pc < |ProgramOf(w, p)|
    ensures p.source == SourceOf(b.transfers, p.req)
  {
    hide ProgramOf, KeyIndex, ReverseError, ValidLegs, DraftOf, Opening, Fact, Business, LockOrder;
  }

  lemma StepIsInside(w: World, b: Books, p: Proc)
    requires !p.req.Close? && p.phase.InTransaction? && p.phase.pc < |ProgramOf(w, p)|
    ensures Moved(w, b, p) == match Attempt(w, b, p, ProgramOf(w, p)[p.phase.pc])
                              case Ok(q) => Advance(q)
                              case Err(e) => AfterError(p, e)
  {
    hide ProgramOf, Attempt;
  }

  lemma GetsAhead(w: World, b: Books, p: Proc)
    requires !p.req.Close? && p.phase.InTransaction? && p.phase.pc < |ProgramOf(w, p)|
    requires Attempt(w, b, p, ProgramOf(w, p)[p.phase.pc]).Ok?
    ensures Ahead(w, Advance(Attempt(w, b, p, ProgramOf(w, p)[p.phase.pc]).value)) < Ahead(w, p)
  {
    hide Program, Attempt;
  }

  lemma CommitServes(w: World, s: State, t: Tid)
    requires WorldOk(w) && Reachable(w, s) && Alone(s, t) && t in s.procs && AtCommit(w, s.procs[t])
    ensures Served(w, s, t, s.procs[t].req, Next(w, s, Step(t)))
  {
    hide WorldOk, Reachable, Next, Alone, AtCommit, Moved, Execute, CommitBooks, BusinessOk, ProcOk, LedgerOk;
    var p := s.procs[t];
    StepAlone(w, s, t);
    NextReachable(w, s, Step(t));
    ReachableProc(w, s, t);
    ProcIsReady(w, s.books, p);
    CommitIsSerial(w, s.books, p);
    CommitterDone(w, s.books, p);
  }

  lemma ServedFromNext(w: World, s: State, t: Tid, r: State)
    requires t in s.procs && Served(w, Next(w, s, Step(t)), t, s.procs[t].req, r)
    requires Next(w, s, Step(t)).books == s.books
    requires t in Next(w, s, Step(t)).procs
    requires Next(w, s, Step(t)).procs == s.procs[t := Next(w, s, Step(t)).procs[t]]
    ensures Served(w, s, t, s.procs[t].req, r)
  {
    hide Reachable, Next, Execute;
  }

  /** After a failed statement: looked up again if the error calls for it, and reported. */
  lemma FailureRunsAlone(w: World, s: State, t: Tid, e: Error) returns (n: nat)
    requires WorldOk(w) && Reachable(w, s) && Alone(s, t) && t in s.procs && Lone(w, s.books, s.procs[t])
    requires s.procs[t].phase.pc < |ProgramOf(w, s.procs[t])|
    requires Attempt(w, s.books, s.procs[t], ProgramOf(w, s.procs[t])[s.procs[t].phase.pc]) == Err(e)
    ensures Served(w, s, t, s.procs[t].req, Steps(w, s, t, n))
  {
    hide WorldOk, Reachable, Next, Alone, AtCommit, Moved, Execute, BusinessOk, ProcOk, LedgerOk, ProgramOf, Attempt;
    hide Created, DraftOf, KeyIndex, ReverseError, ValidLegs, Opening, LockOrder, Steps;
    var p, r := s.procs[t], Next(w, s, Step(t));
    ReachableProc(w, s, t);
    NotYetCommitting(w, p);
    LoneInside(w, s.books, p);
    StepIsInside(w, s.books, p);
    StepAlone(w, s, t);
    NextReachable(w, s, Step(t));
    ErrorIsSerial(w, s.books, p, e);
    FailsSerially(w, s.books, p, e);
    KeyErrorNeedsKey(w, s.books, p, e);
    OneStep(w, s, t);
    if e.IsLedgerError() {
      n := 2;
      StepAlone(w, r, t);
      NextReachable(w, r, Step(t));
      RereadFindsNothing(w, s.books, r.procs[t], e);
    } else {
      n := 1;
    }
  }

  lemma NotYetCommitting(w: World, p: Proc)
    requires p.phase.InTransaction? && p.phase.pc < |ProgramOf(w, p)|
    ensures !AtCommit(w, p)
  {
  }

  lemma RereadFindsNothing(w: World, b: Books, p: Proc, e: Error)
    requires !p.req.Close? && p.phase == Rereading(e) && e != IntegrityError(IdempotencyKeyUnique)
    requires KeyIndex(b.transfers, p.req.key) == |b.transfers|
    ensures Moved(w, b, p).phase == Finished(Failed(ReportedError(p.req, e))) && !AtCommit(w, p)
  {
    hide KeyIndex;
  }

  /** A lone closer does what `close_period` does. */
  lemma CloserRunsAlone(w: World, s: State, t: Tid) returns (n: nat)
    requires WorldOk(w) && Reachable(w, s) && Alone(s, t) && t in s.procs
    requires s.procs[t].req.Close? && s.procs[t].phase.InTransaction?
    ensures Served(w, s, t, s.procs[t].req, Steps(w, s, t, n))
    decreases Ahead(w, s.procs[t])
  {
    hide WorldOk, Reachable, Next, Alone, AtCommit, Ahead, Served, Moved, ProgramOf;
    var p, r := s.procs[t], Next(w, s, Step(t));
    StepAlone(w, s, t);
    NextReachable(w, s, Step(t));
    ReachableProc(w, s, t);
    OneStep(w, s, t);
    if AtCommit(w, p) {
      n := 1;
      CommitServes(w, s, t);
    } else {
      CloserStep(w, s.books, p);
      if Moved(w, s.books, p).phase.Finished? {
        n := 1;
        FinishedServes(w, s, t);
      } else {
        var m := CloserRunsAlone(w, r, t);
        n := m + 1;
        ServedFromNext(w, s, t, Steps(w, r, t, m));
      }
    }
  }

  lemma CloserStep(w: World, b: Books, p: Proc)
    requires p.req.Close? && ProcOk(w, b, p) && p.phase.InTransaction? && !AtCommit(w, p)
    ensures var q := Moved(w, b, p);
      if q.phase.Finished? then Execute(w, b, p.req) == (b, q.phase.response)
      else q.req == p.req && q.phase.InTransaction? && Ahead(w, q) < Ahead(w, p)
  {
    hide PeriodImbalance, EarlierClosed;
    var prog := ProgramOf(w, p);
    if p.phase.pc > 0 { assert Fact(w, b, p, prog[0]); }
    if p.phase.pc > 1 { assert Fact(w, b, p, prog[1]); }
  }

  lemma FinishedServes(w: World, s: State, t: Tid)
    requires Reachable(w, Next(w, s, Step(t))) && Alone(s, t) && t in s.procs && !AtCommit(w, s.procs[t])
    requires Moved(w, s.books, s.procs[t]).phase.Finished?
    requires Execute(w, s.books, s.procs[t].req) == (s.books, Moved(w, s.books, s.procs[t]).phase.response)
    ensures Served(w, s, t, s.procs[t].req, Next(w, s, Step(t)))
  {
    hide Reachable, Next, AtCommit, Moved, Execute;
    StepAlone(w, s, t);
  }

  // ---- From arrival to answer ----------------------------------------------------------------------------

  /** A process that has found its key free enters its transaction, or replays what it has found. */
  lemma KeyRunsAlone(w: World, s: State, t: Tid) returns (n: nat)
    requires WorldOk(w) && Reachable(w, s) && Alone(s, t) && t in s.procs && s.procs[t].phase == ReadKey
    requires ArrivedOk(w, s.books, s.procs[t])
    ensures Served(w, s, t, s.procs[t].req, Steps(w, s, t, n))
  {
    hide WorldOk, Reachable, Next, Alone, AtCommit, Served, Moved, ArrivedOk, Execute, ProcOk, LedgerOk, BusinessOk;
    hide KeyIndex, Lone;
    var p, r := s.procs[t], Next(w, s, Step(t));
    StepAlone(w, s, t);
    NextReachable(w, s, Step(t));
    ReachableProc(w, s, t);
    KeyStep(w, s.books, p);
    OneStep(w, s, t);
    if Moved(w, s.books, p).phase.Finished? {
      n := 1;
      FinishedServes(w, s, t);
    } else {
      var m := PostingRunsAlone(w, r, t);
      n := m + 1;
      ServedFromNext(w, s, t, Steps(w, r, t, m));
    }
  }

  /** What a posting that has not opened its transaction knows. */
  ghost predicate ArrivedOk(w: World, b: Books, p: Proc) {
    && !p.req.Close?
    && (p.req.PostLegs? ==> ValidLegs(p.req.legs))
    && (p.req.Reverse? ==> ReverseError(b.transfers, p.req.target, p.req.key).None?)
    && (p.req.PostLegs? || p.req.Reverse? ==> p.sawOpen == (DraftOf(w, p.req, p.source).period !in b.closed))
  }

  lemma KeyStep(w: World, b: Books, p: Proc)
    requires ProcOk(w, b, p) && p.phase == ReadKey && ArrivedOk(w, b, p)
    ensures var q := Moved(w, b, p);
      && q.req == p.req && !AtCommit(w, p)
      && if q.phase.Finished? then Execute(w, b, p.req) == (b, q.phase.response) else Lone(w, b, q)
  {
    hide KeyIndex, Created, DraftOf, ValidLegs, ReversalIndex, HashOf, Business, LockOrder;
    OpeningLength(p.req);
    if KeyIndex(b.transfers, p.req.key) < |b.transfers| {
      ReplayIsSerial(w, b, p);
    }
  }

  lemma ReplayIsSerial(w: World, b: Books, p: Proc)
    requires ArrivedOk(w, b, p) && KeyIndex(b.transfers, p.req.key) < |b.transfers|
    ensures Execute(w, b, p.req) == (b, Replayed(b, p.req, KeyIndex(b.transfers, p.req.key)))
  {
    hide KeyIndex, Created, DraftOf, ValidLegs, ReversalIndex, HashOf;
    ReplayedErrors(b, p.req, KeyIndex(b.transfers, p.req.key));
  }

  lemma ReplayedErrors(b: Books, req: Request, i: nat)
    requires !req.Close? && i < |b.transfers|
    ensures Replayed(b, req, i).Failed? ==> ReportedError(req, Replayed(b, req, i).error) == Replayed(b, req, i).error
  {
    hide HashOf;
  }

  /** A request has come in and nobody is in a transaction. */
  lemma ArrivalRunsAlone(w: World, s: State, t: Tid) returns (n: nat)
    requires WorldOk(w) && Reachable(w, s) && Alone(s, t) && t in s.procs
    requires s.procs[t] == SpawnedProc(w, s.books, s.procs[t].req, false)
    ensures Served(w, s, t, s.procs[t].req, Steps(w, s, t, n))
  {
    hide WorldOk, Reachable, Next, Alone, Served, Moved, Execute, ValidLegs, DraftOf, ReverseError, AtCommit;
    var p, r := s.procs[t], Next(w, s, Step(t));
    match p.req
    case Close(_, _) => n := CloserRunsAlone(w, s, t);
    case PostLegs(_, _, _, legs, _) =>
      if ValidLegs(legs) {
        ArrivedPosting(w, s.books, p);
        n := KeyRunsAlone(w, s, t);
      } else {
        n := 0;
        RefusedAtOnce(w, s, t);
      }
    case Reverse(_, _, _, _) =>
      StepAlone(w, s, t);
      NextReachable(w, s, Step(t));
      OriginalStep(w, s.books, p);
      OneStep(w, s, t);
      if Moved(w, s.books, p).phase.Finished? {
        n := 1;
        FinishedServes(w, s, t);
      } else {
        var m := KeyRunsAlone(w, r, t);
        n := m + 1;
        ServedFromNext(w, s, t, Steps(w, r, t, m));
      }
    case _ =>
      ArrivedPosting(w, s.books, p);
      n := KeyRunsAlone(w, s, t);
  }

  lemma ArrivedPosting(w: World, b: Books, p: Proc)
    requires p == SpawnedProc(w, b, p.req, false) && (p.req.PostLegs? || p.req.Call? || p.req.Distribute?)
    requires p.req.PostLegs? ==> ValidLegs(p.req.legs)
    ensures ArrivedOk(w, b, p) && p.phase == ReadKey
  {
    hide ValidLegs, PlanFor, HashOf;
  }

  lemma RefusedAtOnce(w: World, s: State, t: Tid)
    requires Reachable(w, s) && t in s.procs && s.procs[t] == SpawnedProc(w, s.books, s.procs[t].req, false)
    requires s.procs[t].req.PostLegs? && !ValidLegs(s.procs[t].req.legs)
    ensures Served(w, s, t, s.procs[t].req, s)
  {
    hide Reachable, ValidLegs, RunOnce;
  }

  lemma OriginalStep(w: World, b: Books, p: Proc)
    requires p == SpawnedProc(w, b, p.req, false) && p.req.Reverse?
    ensures var q := Moved(w, b, p);
      && q.req == p.req && !AtCommit(w, p)
      && if q.phase.Finished? then Execute(w, b, p.req) == (b, q.phase.response)
         else q.phase == ReadKey && ArrivedOk(w, b, q)
  {
    hide RunOnce, ReversalIndex, HashOf, ProgramOf;
  }

  /**
   * Completeness: from any state in which nobody is in a transaction, a new request that runs without interruption
   * answers what it answers run alone, and leaves the books that it leaves run alone, whatever the outcome.
   */
  lemma SoloIsSerial(w: World, s: State, t: Tid, req: Request) returns (n: nat)
    requires WorldOk(w) && Reachable(w, s) && Business(w, req) && t !in s.procs
    requires forall u :: u in s.procs ==> !s.procs[u].phase.InTransaction?
    ensures var r := Steps(w, Next(w, s, Spawn(t, req, false)), t, n);
      && r.books == Execute(w, s.books, req).0
      && t in r.procs && r.procs[t].phase == Finished(Execute(w, s.books, req).1)
      && r.procs == s.procs[t := r.procs[t]]
  {
    hide WorldOk, Reachable, Business, Execute, Steps, SpawnedProc;
    var spawned := Next(w, s, Spawn(t, req, false));
    SpawnedRequest(w, s.books, req);
    NextReachable(w, s, Spawn(t, req, false));
    n := ArrivalRunsAlone(w, spawned, t);
  }

  lemma SpawnedRequest(w: World, b: Books, req: Request)
    ensures SpawnedProc(w, b, req, false).req == req
  {
  }

  // ---- Every serial run is the outcome of an interleaved one ---------------------------------------------

  function StepActions(t: Tid, n: nat): (a: seq<Action>)
    ensures |a| == n && forall i :: 0 <= i < n ==> a[i] == Step(t)
  {
    seq(n, i => Step(t))
  }

  lemma {:induction false} RunContinues(w: World, actions: seq<Action>, t: Tid, n: nat)
    ensures Run(w, actions + StepActions(t, n)) == Steps(w, Run(w, actions), t, n)
    decreases n
  {
    hide Next;
    if n == 0 {
      assert actions + StepActions(t, 0) == actions;
    } else {
      assert actions + StepActions(t, n) == (actions + [Step(t)]) + StepActions(t, n - 1);
      RunContinues(w, actions + [Step(t)], t, n - 1);
      assert (actions + [Step(t)])[..|actions|] == actions;
    }
  }

  /** What a serial run leaves, said of a state of the machine. */
  ghost predicate Answered(w: World, reqs: seq<Request>, s: State) {
    && s.books == ExecuteAll(w, EmptyBooks, reqs)
    && (forall t: Tid :: t in s.procs <==> t < |reqs|)
    && (forall t: Tid :: t in s.procs ==> s.procs[t].phase.Finished?)
    && (forall k: nat :: k < |reqs| ==>
          s.procs[k].phase.response == Execute(w, ExecuteAll(w, EmptyBooks, reqs[..k]), reqs[k]).1)
  }

  lemma AnsweredNext(w: World, reqs: seq<Request>, s: State, r: State)
    requires reqs != [] && Answered(w, reqs[..|reqs| - 1], s)
    requires r.books == Execute(w, s.books, reqs[|reqs| - 1]).0
    requires |reqs| - 1 in r.procs && r.procs == s.procs[|reqs| - 1 := r.procs[|reqs| - 1]]
    requires r.procs[|reqs| - 1].phase == Finished(Execute(w, s.books, reqs[|reqs| - 1]).1)
    ensures Answered(w, reqs, r)
  {
    hide Execute, ExecuteAll;
    var k := |reqs| - 1;
    ServedNext(w, reqs);
    forall j: nat | j < |reqs|
      ensures r.procs[j].phase.response == Execute(w, ExecuteAll(w, EmptyBooks, reqs[..j]), reqs[j]).1
    {
      if j < k {
        assert reqs[..k][..j] == reqs[..j] && reqs[..k][j] == reqs[j];
      }
    }
  }

  lemma ServedNext(w: World, reqs: seq<Request>)
    requires reqs != []
    ensures var k := |reqs| - 1;
      ExecuteAll(w, EmptyBooks, reqs) == Execute(w, ExecuteAll(w, EmptyBooks, reqs[..k]), reqs[k]).0
  {
    hide Execute;
  }

  /** Any requests, served one after the other: some run of the machine leaves exactly their serial books. */
  lemma {:induction false} SerialRunsAreRuns(w: World, reqs: seq<Request>) returns (actions: seq<Action>)
    requires WorldOk(w) && forall k :: 0 <= k < |reqs| ==> Business(w, reqs[k])
    ensures BusinessActions(w, actions) && Answered(w, reqs, Run(w, actions))
  {
    hide WorldOk, Business, Execute, Next, Reachable, Steps, Answered;
    if reqs == [] {
      actions := [];
      NothingAnswered(w);
    } else {
      var k := |reqs| - 1;
      var earlier := SerialRunsAreRuns(w, reqs[..k]);
      RunsAreReachable(w, earlier);
      NobodyInside(w, reqs[..k], Run(w, earlier));
      var n := SoloIsSerial(w, Run(w, earlier), k, reqs[k]);
      var arrived := earlier + [Spawn(k, reqs[k], false)];
      actions := arrived + StepActions(k, n);
      assert arrived[..|earlier|] == earlier;
      RunContinues(w, arrived, k, n);
      AnsweredNext(w, reqs, Run(w, earlier), Run(w, actions));
    }
  }

  lemma NothingAnswered(w: World)
    ensures Answered(w, [], Run(w, []))
  {
  }

  lemma NobodyInside(w: World, reqs: seq<Request>, s: State)
    requires Answered(w, reqs, s)
    ensures |reqs| !in s.procs && forall u :: u in s.procs ==> !s.procs[u].phase.InTransaction?
  {
  }
}
