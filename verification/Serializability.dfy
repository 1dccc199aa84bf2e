/**
 * Every interleaved run is a serial run: the committed books are those of the accepted requests executed one at a
 * time, in commit order, by the sequential operations.
 */
module Serializability {
  import opened Results
  import opened Sums
  import opened Types
  import opened Chart
  import opened Queries
  import opened Posting
  import opened Operations
  import opened Invariants
  import opened Commitments
  import opened Machine
  import opened Locks
  import opened Facts
  import opened Stability

  predicate BusinessActions(w: World, actions: seq<Action>) {
    forall i :: 0 <= i < |actions| && actions[i].Spawn? ==> Business(w, actions[i].req)
  }

  predicate Changes(r: Response) { (r.Transferred? && r.created) || (r.PeriodClosed? && r.changed) }

  /** Each request of the log, run alone after the ones before it, is accepted and changes the books. */
  ghost predicate Accepted(w: World, log: seq<Request>) {
    forall k :: 0 <= k < |log| ==> Changes(Execute(w, ExecuteAll(w, EmptyBooks, log[..k]), log[k]).1)
  }

  ghost predicate Serial(w: World, s: State) {
    s.books == ExecuteAll(w, EmptyBooks, s.log) && Accepted(w, s.log)
  }

  ghost predicate ProcsOk(w: World, s: State) {
    forall t :: t in s.procs ==> ProcOk(w, s.books, s.procs[t])
  }

  ghost predicate Reachable(w: World, s: State) {
    BusinessOk(w, s.books) && ProcsOk(w, s) && Exclusive(w, s) && Serial(w, s)
  }

  // ---- A process's own step ------------------------------------------------------------------------------

  lemma AttemptKeyError(w: World, b: Books, p: Proc, instr: Instr)
    requires !p.req.Close? && Attempt(w, b, p, instr) == Err(IntegrityError(IdempotencyKeyUnique))
    ensures instr.Acquire? && instr.lock.KeyLock? && KeyIndex(b.transfers, instr.lock.key) < |b.transfers|
  {
    hide DraftOf, KeyIndex, ReversalIndex, ValidLegs, NextNumber, Affordable, EntriesOf, PositiveRows, CommitmentsAllow;
    PrepareError(w, p.sawOpen, DraftOf(w, p.req, p.source));
  }

  lemma PrepareError(w: World, open: bool, d: Draft)
    ensures Prepare(w, open, d).Err? ==> !Prepare(w, open, d).error.IntegrityError?
  {
  }

  lemma KeyOfProgram(w: World, p: Proc, k: nat)
    requires !p.req.Close? && k < |ProgramOf(w, p)| && ProgramOf(w, p)[k].Acquire? && ProgramOf(w, p)[k].lock.KeyLock?
    ensures ProgramOf(w, p)[k].lock.key == p.req.key
  {
    hide DraftOf, Program, LockOrder;
    ProgramAt(w, p.req, p.source, k);
    ClosingAt(p.req, DraftOf(w, p.req, p.source));
    DraftKey(w, p.req, p.source);
  }

  lemma ReplayedOk(b: Books, req: Request, i: nat)
    requires !req.Close? && i == KeyIndex(b.transfers, req.key) < |b.transfers|
    ensures ResponseOk(b, req, Replayed(b, req, i))
  {
    hide HashOf, KeyIndex;
  }

  lemma LookUpOk(w: World, b: Books, p: Proc, otherwise: Phase)
    requires !p.req.Close? && Business(w, p.req) && ProcOk(w, b, p.(phase := otherwise))
    ensures ProcOk(w, b, LookUp(b, p, otherwise))
  {
    hide KeyIndex, Replayed, ResponseOk, SourceOk, Established;
    if KeyIndex(b.transfers, p.req.key) < |b.transfers| {
      ReplayedOk(b, p.req, KeyIndex(b.transfers, p.req.key));
    }
  }

  lemma PostingStepOk(w: World, b: Books, p: Proc)
    requires !p.req.Close? && ProcOk(w, b, p) && p.phase.InTransaction? && p.phase.pc < |ProgramOf(w, p)|
    ensures ProcOk(w, b, StepInside(w, b, p))
  {
    hide ProgramOf, PostingFact, Attempt, KeyIndex;
    var pc := p.phase.pc;
    var instr := ProgramOf(w, p)[pc];
    match Attempt(w, b, p, instr)
    case Ok(q) =>
      AttemptEstablishes(w, b, p, instr);
      forall k | 0 <= k < pc ensures PostingFact(w, b, q, ProgramOf(w, p)[k]) {
        assert Fact(w, b, p, ProgramOf(w, p)[k]);
        EarlierFactsSurviveOwnStep(w, b, p, instr, ProgramOf(w, p)[k]);
      }
      AdvanceEstablishes(w, b, p, q);
    case Err(e) =>
      if e == IntegrityError(IdempotencyKeyUnique) {
        AttemptKeyError(w, b, p, instr);
        KeyOfProgram(w, p, pc);
      }
  }

  lemma AdvanceEstablishes(w: World, b: Books, p: Proc, q: Proc)
    requires !p.req.Close? && p.phase.InTransaction? && p.phase.pc < |ProgramOf(w, p)|
    requires q == p.(sawOpen := q.sawOpen, number := q.number)
    requires forall k :: 0 <= k <= p.phase.pc ==> PostingFact(w, b, q, ProgramOf(w, p)[k])
    ensures Established(w, b, Advance(q))
  {
    hide Program, PostingFact;
    forall k | 0 <= k <= p.phase.pc ensures Fact(w, b, Advance(q), ProgramOf(w, p)[k]) {
      FactIgnoresPhase(w, b, q, Advance(q), ProgramOf(w, p)[k]);
    }
  }

  lemma FactIgnoresPhase(w: World, b: Books, p: Proc, q: Proc, instr: Instr)
    requires !p.req.Close? && q == p.(phase := q.phase) && PostingFact(w, b, p, instr)
    ensures PostingFact(w, b, q, instr)
  {
    hide Prepare, PlanOf, PlanError, NextNumber, DraftOf, EntriesOf, Affordable, KeyIndex, ReversalIndex, ValidLegs;
    hide TransferRowError, DocumentError, PositiveRows;
  }

  lemma CloserStepOk(w: World, b: Books, p: Proc)
    requires p.req.Close? && ProcOk(w, b, p) && p.phase.InTransaction? && p.phase.pc < |ProgramOf(w, p)|
    ensures ProcOk(w, b, StepInside(w, b, p))
  {
    hide PeriodImbalance, EarlierClosed;
  }

  /** A process's own step that commits nothing keeps what it knows. */
  lemma OwnStepOk(w: World, b: Books, p: Proc)
    requires ProcOk(w, b, p) && !AtCommit(w, p)
    ensures ProcOk(w, b, Moved(w, b, p))
  {
    hide ProgramOf, StepInside, LookUp, ReverseError, Business, KeyIndex;
    match p.phase
    case ReadOriginal => ReadOriginalOk(w, b, p);
    case ReadKey => LookUpOk(w, b, p, InTransaction(0));
    case InTransaction(pc) =>
      if p.req.Close? {
        CloserStepOk(w, b, p);
      } else {
        PostingStepOk(w, b, p);
      }
    case Rereading(e) =>
      LookUpOk(w, b, p, Finished(Failed(
        if e == IntegrityError(IdempotencyKeyUnique) then DoesNotExist else ReportedError(p.req, e))));
    case Finished(_) =>
  }

  lemma ReadOriginalOk(w: World, b: Books, p: Proc)
    requires ProcOk(w, b, p) && p.phase.ReadOriginal?
    ensures ProcOk(w, b, Moved(w, b, p))
  {
    hide ProgramOf, StepInside, LookUp, Established;
  }

  // ---- The other processes -------------------------------------------------------------------------------

  lemma EstablishedStays(w: World, b: Books, q: Proc, p: Proc)
    requires WorldOk(w) && BusinessOk(w, b) && Business(w, q.req) && Ready(w, b, q) && Apart(w, p, q)
    requires p.phase.InTransaction? && Established(w, b, p)
    ensures Established(w, CommitBooks(w, b, q), p)
  {
    hide WorldOk, BusinessOk, Ready, Apart, ProgramOf, CommitBooks, PostingFact, ClosingFact;
    forall k | 0 <= k < p.phase.pc ensures Fact(w, CommitBooks(w, b, q), p, ProgramOf(w, p)[k]) {
      assert Fact(w, b, p, ProgramOf(w, p)[k]);
      if q.req.Close? {
        ReadyCommits(w, b, q);
        FactStaysUnderClose(w, b, q, p, k);
      } else {
        var t := Made(DraftOf(w, q.req, q.source), EntriesOf(w, DraftOf(w, q.req, q.source)));
        if p.req.Close? {
          ClosingFactStays(w, b, q, t, p, k);
        } else {
          PostingFactStays(w, b, q, t, p, k);
        }
      }
    }
  }

  lemma ReadyCommits(w: World, b: Books, q: Proc)
    requires Ready(w, b, q)
    ensures AtCommit(w, q)
  {
  }

  /** A commit only adds a transfer, or closes a period. */
  lemma CommitGrows(w: World, b: Books, q: Proc)
    requires BusinessOk(w, b) && Business(w, q.req) && Ready(w, b, q)
    ensures var after := CommitBooks(w, b, q);
      && b.closed <= after.closed && |b.transfers| <= |after.transfers|
      && after.transfers[..|b.transfers|] == b.transfers
      && (if q.req.Close? then after.transfers == b.transfers
          else |after.transfers| == |b.transfers| + 1 && after.transfers[|b.transfers|].key == q.req.key
               && after.transfers[|b.transfers|].hash == HashOf(q.req))
  {
    hide BusinessOk, Ready, DraftOf, EntriesOf, HashOf;
    if !q.req.Close? {
      CommitShape(w, b, q, Made(DraftOf(w, q.req, q.source), EntriesOf(w, DraftOf(w, q.req, q.source))));
    }
  }

  lemma ResponseStays(b: Books, after: Books, req: Request, r: Response)
    requires ResponseOk(b, req, r)
    requires b.closed <= after.closed && |b.transfers| <= |after.transfers|
    requires after.transfers[..|b.transfers|] == b.transfers
    ensures ResponseOk(after, req, r)
  {
    hide HashOf;
    if r.Transferred? {
      assert after.transfers[r.id] == after.transfers[..|b.transfers|][r.id];
    }
  }

  lemma SourceStays(b: Books, after: Books, p: Proc)
    requires SourceOk(b, p) && |b.transfers| <= |after.transfers| && after.transfers[..|b.transfers|] == b.transfers
    ensures SourceOk(after, p)
  {
    if p.req.Reverse? {
      assert after.transfers[p.req.target] == after.transfers[..|b.transfers|][p.req.target];
    }
  }

  lemma KeyStaysFound(b: Books, after: Books, key: string)
    requires KeyIndex(b.transfers, key) < |b.transfers| <= |after.transfers|
    requires after.transfers[..|b.transfers|] == b.transfers
    ensures KeyIndex(after.transfers, key) < |after.transfers|
  {
    hide KeyIndex;
    var i := KeyIndex(b.transfers, key);
    assert after.transfers[i] == after.transfers[..|b.transfers|][i];
  }

  /** Another process's commit keeps what a process knows. */
  lemma OtherStays(w: World, b: Books, q: Proc, p: Proc)
    requires WorldOk(w) && BusinessOk(w, b) && Business(w, q.req) && Ready(w, b, q) && Apart(w, p, q)
    requires ProcOk(w, b, p)
    ensures ProcOk(w, CommitBooks(w, b, q), p)
  {
    hide WorldOk, BusinessOk, Business, Ready, Apart, CommitBooks, Established, SourceOk, ResponseOk, KeyIndex;
    var after := CommitBooks(w, b, q);
    CommitGrows(w, b, q);
    match p.phase
    case ReadOriginal =>
    case ReadKey => SourceStays(b, after, p);
    case InTransaction(_) =>
      SourceStays(b, after, p);
      EstablishedStays(w, b, q, p);
    case Rereading(e) =>
      SourceStays(b, after, p);
      if e == IntegrityError(IdempotencyKeyUnique) { KeyStaysFound(b, after, p.req.key); }
    case Finished(r) => ResponseStays(b, after, p.req, r);
  }

  // ---- One step of the machine ---------------------------------------------------------------------------

  lemma ProcIsReady(w: World, b: Books, p: Proc)
    requires ProcOk(w, b, p) && AtCommit(w, p)
    ensures Ready(w, b, p) && Business(w, p.req)
  {
  }

  lemma SpawnedOk(w: World, b: Books, req: Request, stale: bool)
    requires Business(w, req)
    ensures ProcOk(w, b, SpawnedProc(w, b, req, stale))
  {
    hide Program, ValidLegs;
  }

  lemma AbortedOk(w: World, b: Books, p: Proc, retryable: bool)
    requires ProcOk(w, b, p)
    ensures ProcOk(w, b, Aborted(p, retryable))
  {
    hide Established, Program, ValidLegs;
  }

  lemma CommitterDone(w: World, b: Books, p: Proc)
    requires BusinessOk(w, b) && ProcOk(w, b, p) && AtCommit(w, p)
    ensures ProcOk(w, CommitBooks(w, b, p), Moved(w, b, p))
    ensures Moved(w, b, p) == p.(phase := Finished(CommitResponse(b, p)))
  {
    hide BusinessOk, HashOf, SourceOk, Established, Program;
    ProcIsReady(w, b, p);
    CommitGrows(w, b, p);
    if p.req.Close? {
      assert p.req.closing in CommitBooks(w, b, p).closed;
    }
  }

  lemma ApartInState(w: World, s: State, t: Tid, u: Tid)
    requires Exclusive(w, s) && t in s.procs && u in s.procs && t != u
    ensures Apart(w, s.procs[u], s.procs[t])
  {
    hide Holds, Conflict;
  }

  lemma NextProcsOk(w: World, s: State, a: Action)
    requires WorldOk(w) && Reachable(w, s) && (a.Spawn? ==> Business(w, a.req))
    ensures ProcsOk(w, Next(w, s, a))
  {
    hide WorldOk, BusinessOk, Exclusive, Serial, ProcOk, Moved, CommitBooks, Aborted, SpawnedProc, Blocked, AtCommit;
    hide Business;
    match a
    case Spawn(t, req, stale) => SpawnedOk(w, s.books, req, stale);
    case Fail(t, retryable) => if t in s.procs { AbortedOk(w, s.books, s.procs[t], retryable); }
    case Step(t) =>
      if t in s.procs && !Blocked(w, s, t) {
        if AtCommit(w, s.procs[t]) {
          CommitterDone(w, s.books, s.procs[t]);
          ProcIsReady(w, s.books, s.procs[t]);
          forall u | u in s.procs && u != t ensures ProcOk(w, CommitBooks(w, s.books, s.procs[t]), s.procs[u]) {
            ApartInState(w, s, t, u);
            OtherStays(w, s.books, s.procs[t], s.procs[u]);
          }
        } else {
          OwnStepOk(w, s.books, s.procs[t]);
        }
      }
  }

  lemma LogGrows(w: World, s: State, req: Request, after: Books)
    requires Serial(w, s) && Execute(w, s.books, req).0 == after && Changes(Execute(w, s.books, req).1)
    ensures Serial(w, State(after, s.procs, s.log + [req]))
  {
    hide Execute, Changes;
    var log := s.log + [req];
    assert log[..|s.log|] == s.log;
    forall k | 0 <= k < |log| ensures Changes(Execute(w, ExecuteAll(w, EmptyBooks, log[..k]), log[k]).1) {
      if k < |s.log| {
        assert log[..k] == s.log[..k];
      }
    }
  }

  /** A step changes the books only by a commit, and then as the serial operation would. */
  lemma StepIsSerial(w: World, s: State, a: Action)
    requires Reachable(w, s)
    ensures Serial(w, Next(w, s, a))
    ensures Next(w, s, a).books == s.books || (a.Step? && a.tid in s.procs && Business(w, s.procs[a.tid].req)
      && Next(w, s, a).books == Execute(w, s.books, s.procs[a.tid].req).0)
  {
    hide BusinessOk, Exclusive, ProcOk, Moved, CommitBooks, Aborted, SpawnedProc, Blocked, AtCommit, Execute;
    hide Business;
    if a.Step? && a.tid in s.procs && !Blocked(w, s, a.tid) && AtCommit(w, s.procs[a.tid]) {
      var p := s.procs[a.tid];
      ProcIsReady(w, s.books, p);
      CommitIsSerial(w, s.books, p);
      CommitResponseChanges(s.books, p);
      LogGrows(w, s, p.req, CommitBooks(w, s.books, p));
      SerialIgnoresProcs(w, State(CommitBooks(w, s.books, p), s.procs, s.log + [p.req]), Next(w, s, a));
    } else {
      SerialIgnoresProcs(w, s, Next(w, s, a));
    }
  }

  lemma CommitResponseChanges(b: Books, p: Proc)
    ensures Changes(CommitResponse(b, p))
  {
  }

  lemma SerialIgnoresProcs(w: World, s: State, r: State)
    requires Serial(w, s) && r.books == s.books && r.log == s.log
    ensures Serial(w, r)
  {
  }

  lemma NextReachable(w: World, s: State, a: Action)
    requires WorldOk(w) && Reachable(w, s) && (a.Spawn? ==> Business(w, a.req))
    ensures Reachable(w, Next(w, s, a))
  {
    hide WorldOk, BusinessOk, Exclusive, Serial, ProcsOk, Next, Business, Execute;
    NextProcsOk(w, s, a);
    NextKeepsExclusive(w, s, a);
    StepIsSerial(w, s, a);
    if Next(w, s, a).books != s.books {
      ExecuteKeepsBusiness(w, s.books, s.procs[a.tid].req);
    }
  }

  lemma StartReachable(w: World)
    requires WorldOk(w)
    ensures Reachable(w, Start)
  {
    hide WorldOk;
    EmptyBusinessOk(w);
  }

  /** Everything above holds in every reachable state of every interleaving. */
  lemma {:induction false} RunsAreReachable(w: World, actions: seq<Action>)
    requires WorldOk(w) && BusinessActions(w, actions)
    ensures Reachable(w, Run(w, actions))
  {
    hide WorldOk, Next, Reachable, Business;
    if actions == [] {
      StartReachable(w);
    } else {
      var n := |actions| - 1;
      RunsAreReachable(w, actions[..n]);
      NextReachable(w, Run(w, actions[..n]), actions[n]);
    }
  }
}
