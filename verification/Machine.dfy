/**
 * Many requests at once, statement by statement, under READ COMMITTED.
 *
 * A process runs the straight-line program of its request. One step is one statement: a lock taken, a read of
 * committed rows, or an insert that may hit a constraint. Rows become visible, and locks are released, at commit.
 * What the model takes from PostgreSQL: a row lock or a uniqueness conflict with an unfinished transaction waits
 * for it; after the wait the newest committed row is seen; an error rolls the whole transaction back.
 */
module Machine {
  import opened Results
  import opened Types
  import opened Chart
  import opened Queries
  import opened Posting
  import opened Operations

  type Tid = nat

  const ATTEMPTS := 3

  /** Everything a transaction can wait for. An uncommitted insert holds the unique keys it inserted. */
  datatype Lock =
    | FundLock(fund: FundId)
    | AccountLock(account: AccountId)
    | KeyLock(key: string)
    | ReversesLock(target: TransferId)
    | PeriodLock(period: PeriodId)

  datatype Instr =
    | Acquire(lock: Lock)
    | ReadPeriod | ReadPaidIn | ReadNumber
    | Validate | CheckContext | CheckBalance(account: AccountId)
    | InsertTransfer | InsertEntries | InsertDocument
    | CheckEarlier | CheckImbalance

  datatype Phase =
    | ReadOriginal
    | ReadKey
    | InTransaction(pc: nat)
    | Rereading(error: Error)
    | Finished(response: Response)

  /**
   * `sawOpen` is the period status the process has read, perhaps long ago; `source` the transfer a reversal has
   * loaded; `number` the document number it has worked out.
   */
  datatype Proc = Proc(
    req: Request, sawOpen: bool, source: Option<Transfer>, number: nat, attempt: nat, phase: Phase)

  /** `log` records the requests in the order in which they committed something. */
  datatype State = State(books: Books, procs: map<Tid, Proc>, log: seq<Request>)

  const Start := State(EmptyBooks, map[], [])

  /** `stale`: the caller read the period's status before it closed. `Fail`: the server aborts the transaction. */
  datatype Action = Spawn(tid: Tid, req: Request, stale: bool) | Step(tid: Tid) | Fail(tid: Tid, retryable: bool)

  // ---- Programs ------------------------------------------------------------------------------------------

  function AcquireAll(accounts: seq<AccountId>): (r: seq<Instr>)
    ensures |r| == |accounts| && forall i :: 0 <= i < |r| ==> r[i] == Acquire(AccountLock(accounts[i]))
  {
    seq(|accounts|, i requires 0 <= i < |accounts| => Acquire(AccountLock(accounts[i])))
  }

  function CheckAll(accounts: seq<AccountId>): (r: seq<Instr>)
    ensures |r| == |accounts| && forall i :: 0 <= i < |r| ==> r[i] == CheckBalance(accounts[i])
  {
    seq(|accounts|, i requires 0 <= i < |accounts| => CheckBalance(accounts[i]))
  }

  /** What the create closure does before it posts. */
  function Opening(req: Request): seq<Instr> {
    match req
    case Call(_, fund, _, _, _, _) => [Acquire(FundLock(fund)), ReadPeriod, ReadPaidIn, ReadNumber]
    case Distribute(_, fund, _, _, _, _) => [Acquire(FundLock(fund)), ReadPeriod, ReadNumber]
    case _ => []
  }

  /** The inserts, each waiting for the unique keys and the period it needs. */
  function Closing(req: Request, d: Draft): seq<Instr> {
    [InsertTransfer, Acquire(KeyLock(d.key))]
    + (if d.reverses.Some? then [Acquire(ReversesLock(d.reverses.value))] else [])
    + [Acquire(PeriodLock(d.period)), InsertEntries]
    + (if req.Call? || req.Distribute? then [InsertDocument] else [])
  }

  function Program(w: World, req: Request, source: Option<Transfer>): seq<Instr> {
    if req.Close? then [Acquire(PeriodLock(req.closing)), CheckEarlier, CheckImbalance]
    else
      var d := DraftOf(w, req, source);
      var accounts := LockOrder(w, d.legs);
      Opening(req) + [Validate] + AcquireAll(accounts) + [CheckContext] + CheckAll(accounts) + Closing(req, d)
  }

  function ProgramOf(w: World, p: Proc): seq<Instr> { Program(w, p.req, p.source) }

  // ---- Locks ---------------------------------------------------------------------------------------------

  predicate Taken(program: seq<Instr>, pc: nat, l: Lock) {
    exists k :: 0 <= k < pc && k < |program| && program[k] == Acquire(l)
  }

  /** A process in its transaction holds every lock its program has taken so far. */
  predicate Holds(w: World, p: Proc, l: Lock) {
    p.phase.InTransaction? && Taken(ProgramOf(w, p), p.phase.pc, l)
  }

  /** Postings share a period; a closer has it to itself. Every other lock is exclusive. */
  predicate Conflict(p: Proc, q: Proc, l: Lock) { l.PeriodLock? ==> p.req.Close? || q.req.Close? }

  predicate Wants(w: World, p: Proc, l: Lock) {
    p.phase.InTransaction? && p.phase.pc < |ProgramOf(w, p)| && ProgramOf(w, p)[p.phase.pc] == Acquire(l)
  }

  predicate WaitsFor(w: World, s: State, t: Tid, u: Tid) {
    t in s.procs && u in s.procs && t != u && s.procs[t].phase.InTransaction? &&
    var p := s.procs[t];
    p.phase.pc < |ProgramOf(w, p)| && ProgramOf(w, p)[p.phase.pc].Acquire? &&
    var l := ProgramOf(w, p)[p.phase.pc].lock;
    Holds(w, s.procs[u], l) && Conflict(p, s.procs[u], l)
  }

  predicate Blocked(w: World, s: State, t: Tid) { exists u :: u in s.procs && WaitsFor(w, s, t, u) }

  // ---- Statements ----------------------------------------------------------------------------------------

  function EntriesOf(w: World, d: Draft): seq<Entry> {
    var r := Prepare(w, true, d);
    if r.Ok? then r.value else []
  }

  /** One statement inside a posting transaction: what the process learns, or the error it raises. */
  function Attempt(w: World, b: Books, p: Proc, instr: Instr): (r: Result<Proc, Error>)
    requires !p.req.Close?
    ensures r.Ok? ==> r.value == p.(sawOpen := r.value.sawOpen, number := r.value.number)
  {
    var d := DraftOf(w, p.req, p.source);
    match instr
    case Acquire(KeyLock(key)) =>
      if KeyIndex(b.transfers, key) < |b.transfers| then Err(IntegrityError(IdempotencyKeyUnique)) else Ok(p)
    case Acquire(ReversesLock(target)) =>
      if ReversalIndex(b.transfers, target) < |b.transfers| then Err(IntegrityError(ReversesUnique)) else Ok(p)
    case Acquire(PeriodLock(period)) => // the trigger's FOR SHARE, and its check of the status it then sees
      if period in b.closed then Err(IntegrityError(PeriodOpen)) else Ok(p)
    case Acquire(_) => Ok(p)
    case ReadPeriod =>
      (match PlanOf(w, p.req)
       case Err(e) => Err(e)
       case Ok(plan) => Ok(p.(sawOpen := plan.period !in b.closed)))
    case ReadPaidIn =>
      if PlanError(w, b.transfers, p.req).Some? then Err(PlanError(w, b.transfers, p.req).value) else Ok(p)
    case ReadNumber => Ok(p.(number := NextNumber(b, p.req)))
    case Validate => if ValidLegs(d.legs) then Ok(p) else Err(InvalidTransfer)
    case CheckContext =>
      (match Prepare(w, p.sawOpen, d)
       case Err(e) => Err(e)
       case Ok(_) => Ok(p))
    case CheckBalance(a) => if Affordable(w, b.transfers, EntriesOf(w, d), a) then Ok(p) else Err(InsufficientFunds)
    case InsertTransfer => if TransferRowError(d).Some? then Err(TransferRowError(d).value) else Ok(p)
    case InsertEntries => if PositiveRows(EntriesOf(w, d)) then Ok(p) else Err(IntegrityError(EntryPositive))
    case InsertDocument => if DocumentError(p.req).Some? then Err(DocumentError(p.req).value) else Ok(p)
    case _ => Ok(p)
  }

  function PlanOf(w: World, req: Request): Result<Plan, Error> {
    match req
    case Call(_, fund, total, notice, _, _) => PlanFor(w, fund, total, notice, true)
    case Distribute(_, fund, total, payment, _, _) => PlanFor(w, fund, total, payment, false)
    case _ => Err(DoesNotExist)
  }

  /** Where an error leaves a posting once its transaction has rolled back (`_run_once`'s except clauses). */
  function AfterError(p: Proc, e: Error): Proc {
    p.(phase := if e.IsLedgerError() || e == IntegrityError(IdempotencyKeyUnique) then Rereading(e)
                else Finished(Failed(ReportedError(p.req, e))))
  }

  function Advance(p: Proc): Proc
    requires p.phase.InTransaction?
  {
    p.(phase := InTransaction(p.phase.pc + 1))
  }

  /** One statement of `close_period`. */
  function CloserStep(w: World, b: Books, p: Proc, instr: Instr): (q: Proc)
    requires p.req.Close? && p.phase.InTransaction?
    ensures q == p.(phase := q.phase) && (q.phase == InTransaction(p.phase.pc + 1) || q.phase.Finished?)
  {
    match instr
    case Acquire(_) =>
      if p.req.closing >= |w.periods| || w.periods[p.req.closing].fund != p.req.fund
      then p.(phase := Finished(Failed(DoesNotExist)))
      else if p.req.closing in b.closed then p.(phase := Finished(PeriodClosed(false)))
      else Advance(p)
    case CheckEarlier =>
      if p.req.closing < |w.periods| && EarlierClosed(w, b.closed, p.req.closing) then Advance(p)
      else p.(phase := Finished(Failed(PeriodNotClosable)))
    case _ =>
      if PeriodImbalance(w, b.transfers, p.req.closing) == 0 then Advance(p)
      else p.(phase := Finished(Failed(PeriodNotClosable)))
  }

  /** The rows a finished program commits. */
  function CommitBooks(w: World, b: Books, p: Proc): Books {
    if p.req.Close? then b.(closed := b.closed + {p.req.closing})
    else
      var d := DraftOf(w, p.req, p.source);
      WithDocument(AddTransfer(b, Made(d, EntriesOf(w, d))), p.req, p.number, |b.transfers|)
  }

  function CommitResponse(b: Books, p: Proc): Response {
    if p.req.Close? then PeriodClosed(true) else Transferred(|b.transfers|, true)
  }

  // ---- Steps ---------------------------------------------------------------------------------------------

  function FirstPhase(req: Request): Phase {
    match req
    case Reverse(_, _, _, _) => ReadOriginal
    case Close(_, _) => InTransaction(0)
    case PostLegs(_, _, _, legs, _) => if ValidLegs(legs) then ReadKey else Finished(Failed(InvalidTransfer))
    case _ => ReadKey
  }

  function SpawnedProc(w: World, b: Books, req: Request, stale: bool): Proc {
    var open := match req
      case PostLegs(_, _, period, _, _) => period !in b.closed || stale
      case Reverse(_, _, period, _) => period !in b.closed || stale
      case _ => false;
    Proc(req, open, None, 0, 1, FirstPhase(req))
  }

  /** One statement of a transaction. */
  function StepInside(w: World, b: Books, p: Proc): (q: Proc)
    requires p.phase.InTransaction? && p.phase.pc < |ProgramOf(w, p)|
    ensures q.req == p.req && q.source == p.source && q.attempt == p.attempt
    ensures q.phase.InTransaction? ==> q.phase.pc == p.phase.pc + 1
  {
    var instr := ProgramOf(w, p)[p.phase.pc];
    if p.req.Close? then CloserStep(w, b, p, instr)
    else
      match Attempt(w, b, p, instr)
      case Ok(q) => Advance(q)
      case Err(e) => AfterError(p, e)
  }

  /** Looking the key up: before creating, and again after an error. */
  function LookUp(b: Books, p: Proc, otherwise: Phase): Proc
    requires !p.req.Close?
  {
    var i := KeyIndex(b.transfers, p.req.key);
    p.(phase := if i < |b.transfers| then Finished(Replayed(b, p.req, i)) else otherwise)
  }

  /** What a step does to its process. */
  function Moved(w: World, b: Books, p: Proc): (q: Proc)
    ensures q.req == p.req
  {
    match p.phase
    case ReadOriginal =>
      if !p.req.Reverse? then p
      else
        var refused := ReverseError(b.transfers, p.req.target, p.req.key);
        if refused.Some? then p.(phase := Finished(Failed(refused.value)))
        else p.(source := SourceOf(b.transfers, p.req), phase := ReadKey)
    case ReadKey => if p.req.Close? then p else LookUp(b, p, InTransaction(0))
    case InTransaction(pc) =>
      if pc < |ProgramOf(w, p)| then StepInside(w, b, p) else p.(phase := Finished(CommitResponse(b, p)))
    case Rereading(e) =>
      if p.req.Close? then p
      else LookUp(b, p, Finished(Failed(
        if e == IntegrityError(IdempotencyKeyUnique) then DoesNotExist else ReportedError(p.req, e))))
    case Finished(_) => p
  }

  predicate AtCommit(w: World, p: Proc) { p.phase.InTransaction? && p.phase.pc == |ProgramOf(w, p)| }

  /** `with_deadlock_retry` wraps the requests of the API that create a transfer. */
  predicate Retried(req: Request) { req.Call? || req.Distribute? || req.Reverse? }

  function Aborted(p: Proc, retryable: bool): Proc {
    if retryable && Retried(p.req) && p.attempt < ATTEMPTS
    then p.(source := None, number := 0, attempt := p.attempt + 1, phase := FirstPhase(p.req))
    else p.(phase := Finished(Failed(OperationalError)))
  }

  function Next(w: World, s: State, a: Action): State {
    match a
    case Spawn(t, req, stale) =>
      if t in s.procs then s else s.(procs := s.procs[t := SpawnedProc(w, s.books, req, stale)])
    case Step(t) =>
      if t !in s.procs || Blocked(w, s, t) then s
      else
        var p := s.procs[t];
        var after := s.(procs := s.procs[t := Moved(w, s.books, p)]);
        if AtCommit(w, p) then after.(books := CommitBooks(w, s.books, p), log := s.log + [p.req]) else after
    case Fail(t, retryable) =>
      if t !in s.procs || s.procs[t].phase.Finished? then s
      else s.(procs := s.procs[t := Aborted(s.procs[t], retryable)])
  }

  /** A run: any schedule of arrivals, statements and failures, from empty books. */
  function Run(w: World, actions: seq<Action>): State {
    if actions == [] then Start
    else Next(w, Run(w, actions[..|actions| - 1]), actions[|actions| - 1])
  }
}
