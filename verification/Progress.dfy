/** Deadlock freedom: some unfinished process can always step, and from any state all of them can finish. */
module Progress {
  import opened Results
  import opened Sums
  import opened Types
  import opened Queries
  import opened Posting
  import opened Operations
  import opened Commitments
  import opened Machine
  import opened Locks
  import opened Facts
  import opened Stability
  import opened Serializability
  import opened Chart

  predicate Unfinished(s: State, t: Tid) { t in s.procs && !s.procs[t].phase.Finished? }

  predicate CanStep(w: World, s: State, t: Tid) { Unfinished(s, t) && !Blocked(w, s, t) }

  // ---- Somebody can always step --------------------------------------------------------------------------

  /** The global lock order as a number below |accounts| + 4. */
  function RankOf(w: World, l: Lock): int {
    match l
    case FundLock(_) => 0
    case AccountLock(a) => 1 + a
    case KeyLock(_) => |w.accounts| + 1
    case ReversesLock(_) => |w.accounts| + 2
    case PeriodLock(_) => |w.accounts| + 3
  }

  lemma ProgramAccountsExist(w: World, p: Proc, k: nat)
    requires k < |ProgramOf(w, p)| && ProgramOf(w, p)[k].Acquire? && ProgramOf(w, p)[k].lock.AccountLock?
    ensures ProgramOf(w, p)[k].lock.account < |w.accounts|
  {
    hide DraftOf, LockOrder, Closing;
    if !p.req.Close? {
      ProgramAt(w, p.req, p.source, k);
      var n := |Opening(p.req)|;
      var accounts := Accounts(w, p.req, p.source);
      var start := n + 2 + 2 * |accounts|;
      if k >= start {
        ClosingClass(p.req, DraftOf(w, p.req, p.source), k - start);
      } else if n + 1 <= k < n + 1 + |accounts| {
        assert accounts[k - n - 1] in accounts;
      }
    }
  }

  /** A process that waits for one that waits itself wants a lower lock than it does. */
  lemma WaitRises(w: World, s: State, t: Tid, u: Tid, v: Tid)
    requires WaitsFor(w, s, t, u) && WaitsFor(w, s, u, v)
    ensures 0 <= RankOf(w, WantedLock(w, s.procs[t])) < RankOf(w, WantedLock(w, s.procs[u])) <= |w.accounts| + 3
  {
    hide ProgramOf, Holds;
    WaitsGoUp(w, s, t, u, v);
    if WantedLock(w, s.procs[t]).AccountLock? {
      ProgramAccountsExist(w, s.procs[t], s.procs[t].phase.pc);
    }
    if WantedLock(w, s.procs[u]).AccountLock? {
      ProgramAccountsExist(w, s.procs[u], s.procs[u].phase.pc);
    }
  }

  lemma HolderUnfinished(w: World, s: State, t: Tid, u: Tid)
    requires WaitsFor(w, s, t, u)
    ensures Unfinished(s, u) && Unfinished(s, t) && Waiting(w, s.procs[t])
  {
    hide ProgramOf;
  }

  /** Following the waits from a blocked process ends at one that can step. */
  lemma {:induction false} ChaseWaits(w: World, s: State, t: Tid, u: Tid) returns (r: Tid)
    requires WaitsFor(w, s, t, u)
    ensures CanStep(w, s, r)
    decreases |w.accounts| + 4 - RankOf(w, WantedLock(w, s.procs[t]))
  {
    hide WaitsFor, ProgramOf, RankOf, WantedLock;
    HolderUnfinished(w, s, t, u);
    if Blocked(w, s, u) {
      var v :| v in s.procs && WaitsFor(w, s, u, v);
      HolderUnfinished(w, s, u, v);
      WaitRises(w, s, t, u, v);
      r := ChaseWaits(w, s, u, v);
    } else {
      r := u;
    }
  }

  /** Deadlock freedom: while some process is unfinished, some unfinished process is not blocked. */
  lemma SomebodyCanStep(w: World, s: State, t: Tid) returns (r: Tid)
    requires Unfinished(s, t)
    ensures CanStep(w, s, r)
  {
    hide WaitsFor;
    if Blocked(w, s, t) {
      var u :| u in s.procs && WaitsFor(w, s, t, u);
      r := ChaseWaits(w, s, t, u);
    } else {
      r := t;
    }
  }

  // ---- Everybody can finish ------------------------------------------------------------------------------

  /** How many statements a process still has ahead of it, at most. */
  function Ahead(w: World, p: Proc): nat {
    match p.phase
    case ReadOriginal => 0
    case ReadKey => |ProgramOf(w, p)| + 3
    case InTransaction(pc) => if pc <= |ProgramOf(w, p)| then |ProgramOf(w, p)| - pc + 2 else 2
    case Rereading(_) => 1
    case Finished(_) => 0
  }

  function Fresh(p: Proc): nat { if p.phase.ReadOriginal? then 1 else 0 }

  function FreshBelow(s: State, n: nat): int {
    SumBy(Range(n), (t: int) => if t >= 0 && t in s.procs then Fresh(s.procs[t]) else 0)
  }

  function AheadBelow(w: World, s: State, n: nat): int {
    SumBy(Range(n), (t: int) => if t >= 0 && t in s.procs then Ahead(w, s.procs[t]) else 0)
  }

  lemma StepGetsAhead(w: World, b: Books, p: Proc)
    requires ProcOk(w, b, p) && !p.phase.Finished?
    ensures var q := Moved(w, b, p);
      if p.phase.ReadOriginal? then !q.phase.ReadOriginal? else !q.phase.ReadOriginal? && Ahead(w, q) < Ahead(w, p)
  {
    hide Program, Attempt, CloserStep, ReverseError, KeyIndex, Replayed, Business, SourceOk, PostingFact, ClosingFact;
  }

  ghost predicate Below(s: State, n: nat) { forall t :: t in s.procs ==> t < n }

  lemma SumNonNegative(n: nat, f: int -> int)
    requires forall i :: 0 <= i < n ==> f(i) >= 0
    ensures SumBy(Range(n), f) >= 0
  {
    SumByMonotone(Range(n), (i: int) => 0, f);
    SumByZero(Range(n), (i: int) => 0);
  }

  lemma MeasuresNonNegative(w: World, s: State, n: nat)
    ensures FreshBelow(s, n) >= 0 && AheadBelow(w, s, n) >= 0
  {
    hide Ahead, Fresh;
    SumNonNegative(n, (t: int) => if t >= 0 && t in s.procs then Fresh(s.procs[t]) else 0);
    SumNonNegative(n, (t: int) => if t >= 0 && t in s.procs then Ahead(w, s.procs[t]) else 0);
  }

  /** A step of a process that can step brings the whole system closer to the end. */
  lemma StepDecreases(w: World, s: State, t: Tid, n: nat)
    requires Reachable(w, s) && CanStep(w, s, t) && Below(s, n)
    ensures var r := Next(w, s, Step(t));
      && Below(r, n)
      && (FreshBelow(r, n) < FreshBelow(s, n)
          || (FreshBelow(r, n) == FreshBelow(s, n) && AheadBelow(w, r, n) < AheadBelow(w, s, n)))
  {
    hide BusinessOk, Exclusive, Serial, Blocked, CommitBooks, AtCommit, Ahead, ProcOk, Moved;
    var r := Next(w, s, Step(t));
    assert r.procs == s.procs[t := Moved(w, s.books, s.procs[t])];
    StepGetsAhead(w, s.books, s.procs[t]);
    SumByChangeOne(Range(n), t, (t: int) => if t >= 0 && t in s.procs then Fresh(s.procs[t]) else 0,
                   (t: int) => if t >= 0 && t in r.procs then Fresh(r.procs[t]) else 0);
    SumByChangeOne(Range(n), t, (t: int) => if t >= 0 && t in s.procs then Ahead(w, s.procs[t]) else 0,
                   (t: int) => if t >= 0 && t in r.procs then Ahead(w, r.procs[t]) else 0);
  }

  ghost predicate AllFinished(s: State) { forall t :: t in s.procs ==> s.procs[t].phase.Finished? }

  function RunFrom(w: World, s: State, tids: seq<Tid>): State
    decreases |tids|
  {
    if tids == [] then s else RunFrom(w, Next(w, s, Step(tids[0])), tids[1..])
  }

  /** From every reachable state some schedule of plain steps, with no failures, finishes every process. */
  lemma {:induction false} EverybodyCanFinish(w: World, s: State, n: nat) returns (tids: seq<Tid>)
    requires WorldOk(w) && Reachable(w, s) && Below(s, n)
    ensures AllFinished(RunFrom(w, s, tids))
    decreases FreshBelow(s, n), AheadBelow(w, s, n)
  {
    hide WorldOk, Reachable, Next, FreshBelow, AheadBelow, Below, CanStep;
    if AllFinished(s) {
      tids := [];
    } else {
      var t :| t in s.procs && !s.procs[t].phase.Finished?;
      var u := SomebodyCanStep(w, s, t);
      MeasuresNonNegative(w, s, n);
      StepDecreases(w, s, u, n);
      MeasuresNonNegative(w, Next(w, s, Step(u)), n);
      NextReachable(w, s, Step(u));
      var rest := EverybodyCanFinish(w, Next(w, s, Step(u)), n);
      tids := [u] + rest;
      assert tids[1..] == rest;
    }
  }
}
