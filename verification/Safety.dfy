/** The protocol's guarantees, over every run of the interleaved machine. */
module Safety {
  import opened Results
  import opened Sums
  import opened Types
  import opened Chart
  import opened Queries
  import opened Posting
  import opened Operations
  import opened Invariants
  import opened Commitments
  import opened Fingerprints
  import opened Machine
  import opened Locks
  import opened Facts
  import opened Stability
  import opened Serializability

  // ---- Refinement ----------------------------------------------------------------------------------------

  /**
   * Every interleaved run commits what running its accepted requests one at a time, in commit order, would
   * commit; and each of them is accepted at its turn.
   */
  lemma RunsRefineSerial(w: World, actions: seq<Action>)
    requires WorldOk(w) && BusinessActions(w, actions)
    ensures var s := Run(w, actions);
      s.books == ExecuteAll(w, EmptyBooks, s.log) && Accepted(w, s.log)
  {
    hide WorldOk, Run, Execute, ExecuteAll, Accepted;
    RunsAreReachable(w, actions);
  }

  /** Nobody is called beyond a commitment, nor credited below zero, in any reachable state. */
  lemma NoCommitmentExceeded(w: World, actions: seq<Action>, i: nat)
    requires WorldOk(w) && BusinessActions(w, actions) && i < |w.commitments|
    ensures var c := w.commitments[i];
      0 <= Contributed(w, Run(w, actions).books.transfers, LpAccount(w, c.fund, c.lp)) <= c.committed
  {
    hide WorldOk, Run, Contributed, Serial, Exclusive, ProcsOk, BooksOk, Linked, Replayable;
    RunsAreReachable(w, actions);
  }

  lemma ReachableNumbers(w: World, s: State)
    requires Reachable(w, s)
    ensures TagsOk(CallTags(s.books.calls)) && TagsOk(DistributionTags(s.books.distributions))
    ensures ClosedPrefix(w, s.books.closed)
  {
    hide LedgerOk, Linked, Replayable, WithinCommitments, ProcsOk, Exclusive, Serial, TagsOk;
  }

  /** A fund's call numbers are exactly 1..n in any reachable state, and so are its distribution numbers. */
  lemma NumbersAreGapFree(w: World, actions: seq<Action>, fund: FundId)
    requires WorldOk(w) && BusinessActions(w, actions)
    ensures var calls := CallTags(Run(w, actions).books.calls);
      forall k: nat :: HasNumber(calls, fund, k) <==> 1 <= k <= TagCount(calls, fund)
    ensures var docs := DistributionTags(Run(w, actions).books.distributions);
      forall k: nat :: HasNumber(docs, fund, k) <==> 1 <= k <= TagCount(docs, fund)
  {
    hide WorldOk, Run, TagsOk, HasNumber, Reachable;
    RunsAreReachable(w, actions);
    ReachableNumbers(w, Run(w, actions));
    NumbersGapFree(CallTags(Run(w, actions).books.calls), fund);
    NumbersGapFree(DistributionTags(Run(w, actions).books.distributions), fund);
  }

  // ---- Closing is final ----------------------------------------------------------------------------------

  /** `later` extends `b`: rows are only added, closed periods stay closed, and none of the new rows is in one. */
  ghost predicate Extends(b: Books, later: Books) {
    && b.closed <= later.closed
    && |b.transfers| <= |later.transfers| && later.transfers[..|b.transfers|] == b.transfers
    && (forall i :: |b.transfers| <= i < |later.transfers| ==> later.transfers[i].period !in b.closed)
  }

  lemma ExtendsTransitive(a: Books, b: Books, c: Books)
    requires Extends(a, b) && Extends(b, c)
    ensures Extends(a, c)
  {
    assert c.transfers[..|a.transfers|] == c.transfers[..|b.transfers|][..|a.transfers|];
    forall i | |a.transfers| <= i < |c.transfers| ensures c.transfers[i].period !in a.closed {
      if i < |b.transfers| {
        assert c.transfers[i] == c.transfers[..|b.transfers|][i];
      }
    }
  }

  /** Append-only: an operation adds at most one transfer, into an open period, or closes one. */
  lemma ExecuteExtends(w: World, b: Books, req: Request)
    ensures Extends(b, Execute(w, b, req).0)
  {
    hide Execute, Created, ClosedBooks, Posted, Prepare, DraftOf;
    if req.Close? {
      ExecuteClose(w, b, req);
      CloseOutcome(w, b, req.fund, req.closing);
    } else {
      ExecuteOutcome(w, b, req);
      if Execute(w, b, req).0 != b {
        var source := SourceOf(b.transfers, req);
        CreatedParts(w, b, req, source);
        PostedParts(w, b, DraftOf(w, req, source));
      }
    }
  }

  lemma ExecuteClose(w: World, b: Books, req: Request)
    requires req.Close?
    ensures Execute(w, b, req) == ClosedBooks(w, b, req.fund, req.closing)
  {
  }

  /**
   * Closing is final and ordered, in any interleaving: after a period's close commits, no transfer is ever
   * committed into it and it never reopens; and each fund's closed periods form a prefix by start date.
   */
  lemma {:induction false} ClosingIsFinal(w: World, actions: seq<Action>, n: nat)
    requires WorldOk(w) && BusinessActions(w, actions) && n <= |actions|
    ensures Extends(Run(w, actions[..n]).books, Run(w, actions).books)
    ensures ClosedPrefix(w, Run(w, actions).books.closed)
    decreases |actions|
  {
    hide WorldOk, Next, Reachable, Extends, Execute, ClosedPrefix;
    RunsAreReachable(w, actions);
    ReachableNumbers(w, Run(w, actions));
    if n == |actions| {
      assert actions[..n] == actions;
      ExtendsItself(Run(w, actions).books);
    } else {
      var m := |actions| - 1;
      var before, a := Run(w, actions[..m]), actions[m];
      RunsAreReachable(w, actions[..m]);
      ClosingIsFinal(w, actions[..m], n);
      assert actions[..m][..n] == actions[..n];
      StepIsSerial(w, before, a);
      if Next(w, before, a).books == before.books {
        ExtendsItself(before.books);
      } else {
        ExecuteExtends(w, before.books, before.procs[a.tid].req);
      }
      ExtendsTransitive(Run(w, actions[..n]).books, before.books, Run(w, actions).books);
    }
  }

  /** In every run, each period that starts before a closed one of its fund is closed. */
  lemma EarlierPeriodsAreClosed(w: World, actions: seq<Action>, p: PeriodId, q: PeriodId)
    requires WorldOk(w) && BusinessActions(w, actions) && p in Run(w, actions).books.closed
    requires p < |w.periods| && q < |w.periods|
    requires w.periods[q].fund == w.periods[p].fund && w.periods[q].start < w.periods[p].start
    ensures q in Run(w, actions).books.closed
  {
    hide WorldOk, Run, Extends, Reachable;
    ClosingIsFinal(w, actions, 0);
    assert Earlier(w, q, p);
  }

  lemma ExtendsItself(b: Books)
    ensures Extends(b, b)
  {
  }

  // ---- Exactly once --------------------------------------------------------------------------------------

  predicate Succeeded(p: Proc) { p.phase.Finished? && p.phase.response.Transferred? }

  predicate Creator(p: Proc) { Succeeded(p) && p.phase.response.created }

  ghost predicate CreatorsDiffer(s: State) {
    forall t, u :: t in s.procs && u in s.procs && t != u && Creator(s.procs[t]) && Creator(s.procs[u]) ==>
      s.procs[t].phase.response.id != s.procs[u].phase.response.id
  }

  lemma CreatesTheNextTransfer(w: World, b: Books, p: Proc)
    requires Creator(Moved(w, b, p))
    ensures Moved(w, b, p) == p || Moved(w, b, p).phase.response.id == |b.transfers|
  {
    hide ProgramOf, ReverseError, KeyIndex, HashOf, Attempt;
  }

  lemma SucceededId(w: World, b: Books, p: Proc)
    requires ProcOk(w, b, p) && Succeeded(p)
    ensures p.phase.response.id < |b.transfers|
  {
    hide HashOf;
  }

  lemma NextCreatorsDiffer(w: World, s: State, a: Action)
    requires Reachable(w, s) && CreatorsDiffer(s)
    ensures CreatorsDiffer(Next(w, s, a))
  {
    hide BusinessOk, Exclusive, Serial, ProcOk, Moved, CommitBooks, Blocked, AtCommit;
    match a
    case Spawn(t, req, stale) =>
    case Fail(t, retryable) =>
    case Step(t) =>
      if t in s.procs && !Blocked(w, s, t) && Creator(Moved(w, s.books, s.procs[t])) {
        CreatesTheNextTransfer(w, s.books, s.procs[t]);
        forall u | u in s.procs && Succeeded(s.procs[u]) ensures s.procs[u].phase.response.id < |s.books.transfers| {
          SucceededId(w, s.books, s.procs[u]);
        }
      }
  }

  lemma {:induction false} RunCreatorsDiffer(w: World, actions: seq<Action>)
    requires WorldOk(w) && BusinessActions(w, actions)
    ensures CreatorsDiffer(Run(w, actions))
  {
    hide WorldOk, Next, Reachable, CreatorsDiffer, Business;
    if actions == [] {
      NobodyCreated();
    } else {
      var n := |actions| - 1;
      RunsAreReachable(w, actions[..n]);
      RunCreatorsDiffer(w, actions[..n]);
      NextCreatorsDiffer(w, Run(w, actions[..n]), actions[n]);
    }
  }

  lemma NobodyCreated()
    ensures CreatorsDiffer(Start)
  {
  }

  lemma SuccessNames(w: World, s: State, t: Tid)
    requires Reachable(w, s) && t in s.procs && Succeeded(s.procs[t])
    ensures !s.procs[t].req.Close?
    ensures var id := s.procs[t].phase.response.id;
      id < |s.books.transfers| && s.books.transfers[id].key == s.procs[t].req.key
      && s.books.transfers[id].hash == HashOf(s.procs[t].req)
    ensures UniqueKeys(s.books.transfers)
  {
    hide HashOf, Exclusive, Serial, TransfersOk, UniqueReversals, CashNonNegative;
    hide Linked, Replayable, WithinCommitments;
    assert ProcOk(w, s.books, s.procs[t]);
  }

  /**
   * Exactly once: among all requests for one key, in any interleaving with retries, the successful ones name the
   * same transfer, the only one with that key, and carry the same payload; at most one of them created it.
   */
  lemma ExactlyOnce(w: World, actions: seq<Action>, t: Tid, u: Tid)
    requires WorldOk(w) && BusinessActions(w, actions)
    requires var s := Run(w, actions);
      && t in s.procs && u in s.procs && t != u && Succeeded(s.procs[t]) && Succeeded(s.procs[u])
      && !s.procs[t].req.Close? && !s.procs[u].req.Close? && s.procs[t].req.key == s.procs[u].req.key
    ensures var s := Run(w, actions);
      var p, q := s.procs[t], s.procs[u];
      && p.phase.response.id == q.phase.response.id && HashOf(p.req) == HashOf(q.req)
      && !(p.phase.response.created && q.phase.response.created)
      && (forall i :: 0 <= i < |s.books.transfers| && s.books.transfers[i].key == p.req.key ==>
            i == p.phase.response.id)
  {
    hide WorldOk, Run, Reachable, HashOf;
    RunsAreReachable(w, actions);
    RunCreatorsDiffer(w, actions);
    SuccessNames(w, Run(w, actions), t);
    SuccessNames(w, Run(w, actions), u);
  }

  /** A second read after a lost race on a key always finds the winner's row. */
  lemma RereadFindsARow(w: World, actions: seq<Action>, t: Tid)
    requires WorldOk(w) && BusinessActions(w, actions) && t in Run(w, actions).procs
    requires Run(w, actions).procs[t].phase == Rereading(IntegrityError(IdempotencyKeyUnique))
    ensures !Run(w, actions).procs[t].req.Close?
    ensures var ts := Run(w, actions).books.transfers;
      KeyIndex(ts, Run(w, actions).procs[t].req.key) < |ts|
  {
    hide WorldOk, Run, KeyIndex, BusinessOk, Exclusive, Serial, Established;
    RunsAreReachable(w, actions);
    assert ProcOk(w, Run(w, actions).books, Run(w, actions).procs[t]);
  }

  lemma ReplayFinds(b: Books, req: Request, i: nat)
    requires Replayable(b) && !req.Close? && i < |b.transfers|
    ensures Replayed(b, req, i) ==
      if b.transfers[i].hash == HashOf(req) then Transferred(i, false) else Failed(IdempotencyConflict)
  {
    hide TransferFingerprint, MoneyText;
    if b.transfers[i].hash == HashOf(req) {
      if req.Call? { assert HasCall(b.calls, i); }
      if req.Distribute? { assert HasDistribution(b.distributions, i); }
    }
  }

  /** A request that finds its key taken replays the transfer and its document, or conflicts: never anything else. */
  lemma KnownKeyReplaysOrConflicts(w: World, actions: seq<Action>, req: Request)
    requires WorldOk(w) && BusinessActions(w, actions) && !req.Close?
    requires KeyIndex(Run(w, actions).books.transfers, req.key) < |Run(w, actions).books.transfers|
    ensures var b := Run(w, actions).books;
      var i := KeyIndex(b.transfers, req.key);
      Replayed(b, req, i) ==
        if b.transfers[i].hash == HashOf(req) then Transferred(i, false) else Failed(IdempotencyConflict)
  {
    hide WorldOk, Run, KeyIndex, BooksOk, Exclusive, Serial, ProcsOk, Replayable, Replayed, HashOf;
    RunsAreReachable(w, actions);
    ReplayFinds(Run(w, actions).books, req, KeyIndex(Run(w, actions).books.transfers, req.key));
  }

  /** A step after which its process has failed leaves the committed rows alone. */
  lemma FailureChangesNothing(w: World, s: State, a: Action)
    requires a.tid in Next(w, s, a).procs && Next(w, s, a).procs[a.tid].phase.Finished?
    requires Next(w, s, a).procs[a.tid].phase.response.Failed?
    ensures Next(w, s, a).books == s.books && Next(w, s, a).log == s.log
  {
    hide ProgramOf, CommitBooks, StepInside, LookUp, ReverseError, Blocked;
  }

  // ---- The log and its owners ----------------------------------------------------------------------------

  /** The processes that committed, in commit order. */
  function Committers(w: World, actions: seq<Action>): seq<Tid> {
    if actions == [] then []
    else
      var n := |actions| - 1;
      var earlier := Committers(w, actions[..n]);
      if |Run(w, actions).log| > |Run(w, actions[..n]).log| then earlier + [actions[n].tid] else earlier
  }

  predicate Succeeding(p: Proc) { p.phase.Finished? && Changes(p.phase.response) }

  /** Entry k of the log is the request of process c[k], which has answered what the request, run alone, answers. */
  ghost predicate Owns(w: World, s: State, t: Tid, k: nat)
    requires k < |s.log|
  {
    && t in s.procs && s.procs[t].req == s.log[k] && Business(w, s.log[k]) && Succeeding(s.procs[t])
    && s.procs[t].phase.response == Execute(w, ExecuteAll(w, EmptyBooks, s.log[..k]), s.log[k]).1
  }

  /** The log belongs, entry by entry, to the processes that changed the books, and to each of them once. */
  ghost predicate LogOwned(w: World, s: State, c: seq<Tid>) {
    && |c| == |s.log|
    && (forall k :: 0 <= k < |c| ==> Owns(w, s, c[k], k))
    && (forall j, k :: 0 <= j < k < |c| ==> c[j] != c[k])
    && (forall t :: t in s.procs && Succeeding(s.procs[t]) ==> t in c)
  }

  /** A step that commits nothing makes nobody succeed in changing the books. */
  lemma NoChangeWithoutCommit(w: World, b: Books, p: Proc)
    requires ProcOk(w, b, p) && !AtCommit(w, p) && Succeeding(Moved(w, b, p))
    ensures Moved(w, b, p) == p
  {
    hide ProgramOf, ReverseError, KeyIndex, HashOf, Attempt, SourceOk, ResponseOk, Fact, Business;
  }

  lemma FinishedStays(w: World, s: State, a: Action, t: Tid)
    requires t in s.procs && s.procs[t].phase.Finished?
    ensures t in Next(w, s, a).procs && Next(w, s, a).procs[t] == s.procs[t]
    ensures a.Step? && a.tid == t ==> Next(w, s, a).log == s.log
  {
    hide ProgramOf, CommitBooks, StepInside, LookUp, Blocked;
  }

  lemma OwnedWithoutCommit(w: World, s: State, a: Action, c: seq<Tid>)
    requires Reachable(w, s) && LogOwned(w, s, c) && Next(w, s, a).log == s.log
    ensures LogOwned(w, Next(w, s, a), c)
  {
    hide Execute, ExecuteAll, Business, Moved, AtCommit, Blocked, CommitBooks, SpawnedProc, Aborted, Changes, Reachable;
    var r := Next(w, s, a);
    forall k | 0 <= k < |c| ensures Owns(w, r, c[k], k) {
      assert Owns(w, s, c[k], k);
      FinishedStays(w, s, a, c[k]);
    }
    forall t | t in r.procs && Succeeding(r.procs[t]) ensures t in c {
      NewSuccess(w, s, a, t);
    }
  }

  lemma NewSuccess(w: World, s: State, a: Action, t: Tid)
    requires Reachable(w, s) && Next(w, s, a).log == s.log
    requires t in Next(w, s, a).procs && Succeeding(Next(w, s, a).procs[t])
    ensures t in s.procs && Succeeding(s.procs[t])
  {
    hide ProgramOf, Moved, CommitBooks, Blocked, ValidLegs, ProcOk, BusinessOk, Exclusive, Serial;
    if a.Step? && a.tid == t && t in s.procs && !Blocked(w, s, t) {
      NoChangeWithoutCommit(w, s.books, s.procs[t]);
    }
  }

  lemma OwnedAfterCommit(w: World, s: State, a: Action, c: seq<Tid>)
    requires Reachable(w, s) && LogOwned(w, s, c) && Next(w, s, a).log != s.log
    ensures LogOwned(w, Next(w, s, a), c + [a.tid]) && |Next(w, s, a).log| == |s.log| + 1
  {
    hide Execute, ExecuteAll, Business, Moved, AtCommit, Blocked, CommitBooks, ProcOk, BusinessOk, Exclusive, Accepted;
    hide Changes;
    var r, p := Next(w, s, a), s.procs[a.tid];
    CommittedAnswer(w, s, a);
    forall k | 0 <= k < |c| ensures Owns(w, r, c[k], k) && c[k] != a.tid {
      assert Owns(w, s, c[k], k);
      assert r.log[..k] == s.log[..k];
      FinishedStays(w, s, a, c[k]);
    }
    assert r.log[..|c|] == s.log;
    assert Owns(w, r, a.tid, |c|);
  }

  lemma CommittedAnswer(w: World, s: State, a: Action)
    requires Reachable(w, s) && Next(w, s, a).log != s.log
    ensures a.Step? && a.tid in s.procs && Business(w, s.procs[a.tid].req)
    ensures var r, p := Next(w, s, a), s.procs[a.tid];
      && !p.phase.Finished? && r.log == s.log + [p.req]
      && r.procs == s.procs[a.tid := r.procs[a.tid]] && r.procs[a.tid].req == p.req && Succeeding(r.procs[a.tid])
      && r.procs[a.tid].phase.response == Execute(w, ExecuteAll(w, EmptyBooks, s.log), p.req).1
  {
    hide BusinessOk, Exclusive, Accepted, ProcOk, CommitBooks, Blocked, Execute, ExecuteAll, Business;
    var p := s.procs[a.tid];
    assert ProcOk(w, s.books, p);
    ProcIsReady(w, s.books, p);
    CommitIsSerial(w, s.books, p);
    CommitterDone(w, s.books, p);
    CommitResponseChanges(s.books, p);
  }

  /**
   * Every commit has exactly one owner, which has answered success, and every answer that something was created or
   * closed has a commit. So a request that ends refused or failed, after any number of attempts, left no trace.
   */
  lemma {:induction false} LogIsOwned(w: World, actions: seq<Action>)
    requires WorldOk(w) && BusinessActions(w, actions)
    ensures LogOwned(w, Run(w, actions), Committers(w, actions))
  {
    hide WorldOk, Next, Reachable, LogOwned, Business;
    if actions == [] {
      NobodyOwns(w);
    } else {
      var n := |actions| - 1;
      var s := Run(w, actions[..n]);
      RunsAreReachable(w, actions[..n]);
      LogIsOwned(w, actions[..n]);
      if Run(w, actions).log == s.log {
        OwnedWithoutCommit(w, s, actions[n], Committers(w, actions[..n]));
      } else {
        OwnedAfterCommit(w, s, actions[n], Committers(w, actions[..n]));
      }
    }
  }

  lemma NobodyOwns(w: World)
    ensures LogOwned(w, Start, [])
  {
  }

  /** A request that has failed committed nothing in any of its attempts. */
  lemma FailureLeavesNoTrace(w: World, actions: seq<Action>, t: Tid)
    requires WorldOk(w) && BusinessActions(w, actions) && t in Run(w, actions).procs
    requires Run(w, actions).procs[t].phase.Finished? && Run(w, actions).procs[t].phase.response.Failed?
    ensures t !in Committers(w, actions)
    ensures |Committers(w, actions)| == |Run(w, actions).log|
  {
    hide WorldOk, Run, Execute, ExecuteAll, Business, Committers;
    LogIsOwned(w, actions);
    var s, c := Run(w, actions), Committers(w, actions);
    forall k | 0 <= k < |c| ensures c[k] != t {
      assert Owns(w, s, c[k], k);
    }
  }

  // ---- Server-side aborts --------------------------------------------------------------------------------

  /** An abort rolls everything back; its process starts over, if it may, with nothing it had learned. */
  lemma AbortRollsBack(w: World, s: State, t: Tid, retryable: bool)
    requires t in s.procs && !s.procs[t].phase.Finished?
    ensures var r, p := Next(w, s, Fail(t, retryable)), s.procs[t];
      && r.books == s.books && r.log == s.log && (forall l :: !Holds(w, r.procs[t], l))
      && if retryable && (p.req.Call? || p.req.Distribute? || p.req.Reverse?) && p.attempt < 3
         then r.procs[t].attempt == p.attempt + 1 && r.procs[t].source == None && r.procs[t].phase == FirstPhase(p.req)
         else r.procs[t].phase == Finished(Failed(OperationalError))
  {
    hide ProgramOf, ValidLegs;
  }

  predicate AttemptsBounded(s: State) { forall t :: t in s.procs ==> 1 <= s.procs[t].attempt <= 3 }

  /** No request makes more than its allowed attempts. */
  lemma {:induction false} AttemptsAreBounded(w: World, actions: seq<Action>)
    ensures AttemptsBounded(Run(w, actions))
  {
    if actions != [] {
      var n := |actions| - 1;
      AttemptsAreBounded(w, actions[..n]);
      AttemptStays(w, Run(w, actions[..n]), actions[n]);
    }
  }

  lemma AttemptStays(w: World, s: State, a: Action)
    requires AttemptsBounded(s)
    ensures AttemptsBounded(Next(w, s, a))
  {
    hide ProgramOf, ReverseError, CommitBooks, Replayed, Blocked, ValidLegs;
  }
}
