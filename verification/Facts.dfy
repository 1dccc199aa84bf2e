/**
 * What a transaction has established stays established until it commits: every check passed by a statement of
 * its program still holds of the committed rows, whatever other transactions commit in between.
 */
module Facts {
  import opened Results
  import opened Sums
  import opened Types
  import opened Chart
  import opened Queries
  import opened Posting
  import opened Operations
  import opened Invariants
  import opened Capital
  import opened Commitments
  import opened Machine
  import opened Locks
  import Pricing

  /** What having run an instruction of a posting program says about the committed rows. */
  ghost predicate PostingFact(w: World, b: Books, p: Proc, instr: Instr)
    requires !p.req.Close?
  {
    var d := DraftOf(w, p.req, p.source);
    match instr
    case Acquire(KeyLock(key)) => KeyIndex(b.transfers, key) == |b.transfers|
    case Acquire(ReversesLock(target)) => ReversalIndex(b.transfers, target) == |b.transfers|
    case Acquire(PeriodLock(period)) => period !in b.closed
    case ReadPeriod => PlanOf(w, p.req).Ok?
    case ReadPaidIn => PlanError(w, b.transfers, p.req).None?
    case ReadNumber => p.number == NextNumber(b, p.req)
    case Validate => ValidLegs(d.legs)
    case CheckContext => Prepare(w, true, d).Ok?
    case CheckBalance(a) => Affordable(w, b.transfers, EntriesOf(w, d), a)
    case InsertTransfer => TransferRowError(d).None?
    case InsertEntries => PositiveRows(EntriesOf(w, d))
    case InsertDocument => DocumentError(p.req).None?
    case _ => true
  }

  ghost predicate ClosingFact(w: World, b: Books, p: Proc, instr: Instr)
    requires p.req.Close?
  {
    var q := p.req.closing;
    match instr
    case Acquire(_) => q < |w.periods| && w.periods[q].fund == p.req.fund && q !in b.closed
    case CheckEarlier => q < |w.periods| && EarlierClosed(w, b.closed, q)
    case _ => PeriodImbalance(w, b.transfers, q) == 0
  }

  ghost predicate Fact(w: World, b: Books, p: Proc, instr: Instr) {
    if p.req.Close? then ClosingFact(w, b, p, instr) else PostingFact(w, b, p, instr)
  }

  /** Everything a process has established so far. */
  ghost predicate Established(w: World, b: Books, p: Proc)
    requires p.phase.InTransaction?
  {
    p.phase.pc <= |ProgramOf(w, p)| &&
    forall k :: 0 <= k < p.phase.pc ==> Fact(w, b, p, ProgramOf(w, p)[k])
  }

  /** A reversal works from the committed transfer it names. */
  ghost predicate SourceOk(b: Books, p: Proc) {
    p.source == SourceOf(b.transfers, p.req) &&
    (p.req.Reverse? ==> p.req.target < |b.transfers| && b.transfers[p.req.target].kind != Reversal)
  }

  /** A success names a committed transfer of the request's key and payload, or a closed period. */
  ghost predicate ResponseOk(b: Books, req: Request, r: Response) {
    match r
    case Transferred(id, _) =>
      !req.Close? && id < |b.transfers| && b.transfers[id].key == req.key && b.transfers[id].hash == HashOf(req)
    case PeriodClosed(_) => req.Close? && req.closing in b.closed
    case Failed(_) => true
  }

  ghost predicate ProcOk(w: World, b: Books, p: Proc) {
    Business(w, p.req) &&
    match p.phase
    case ReadOriginal => p.req.Reverse?
    case ReadKey => !p.req.Close? && SourceOk(b, p)
    case InTransaction(_) => SourceOk(b, p) && Established(w, b, p)
    case Rereading(e) =>
      !p.req.Close? && SourceOk(b, p) &&
      (e == IntegrityError(IdempotencyKeyUnique) ==> KeyIndex(b.transfers, p.req.key) < |b.transfers|)
    case Finished(r) => ResponseOk(b, p.req, r)
  }

  // ---- A statement establishes its fact ------------------------------------------------------------------

  lemma PrepareIgnoresOpen(w: World, open: bool, d: Draft)
    requires Prepare(w, open, d).Ok?
    ensures Prepare(w, true, d) == Prepare(w, open, d)
  {
  }

  lemma AttemptEstablishes(w: World, b: Books, p: Proc, instr: Instr)
    requires !p.req.Close? && Attempt(w, b, p, instr).Ok?
    ensures PostingFact(w, b, Attempt(w, b, p, instr).value, instr)
  {
    hide NextNumber, DraftOf, KeyIndex, ReversalIndex, ValidLegs, TransferRowError;
    hide Prepare, DocumentError, PositiveRows, PlanError, Affordable, EntriesOf;
    var d := DraftOf(w, p.req, p.source);
    match instr
    case CheckContext => PrepareIgnoresOpen(w, p.sawOpen, d);
    case _ =>
  }

  lemma EarlierFactsSurviveOwnStep(w: World, b: Books, p: Proc, instr: Instr, earlier: Instr)
    requires !p.req.Close? && Attempt(w, b, p, instr).Ok? && PostingFact(w, b, p, earlier)
    ensures PostingFact(w, b, Attempt(w, b, p, instr).value, earlier)
  {
    hide Prepare, PlanOf, PlanError, NextNumber, DraftOf, EntriesOf, Affordable, KeyIndex, ReversalIndex, ValidLegs;
    hide TransferRowError, DocumentError, PositiveRows;
    assert Attempt(w, b, p, instr).value.number == p.number || instr == ReadNumber;
  }

  // ---- What a complete program has checked ---------------------------------------------------------------

  ghost predicate Ready(w: World, b: Books, p: Proc) { AtCommit(w, p) && SourceOk(b, p) && Established(w, b, p) }

  lemma FactAt(w: World, b: Books, p: Proc, k: nat)
    requires !p.req.Close? && Ready(w, b, p) && k < |ProgramOf(w, p)|
    ensures PostingFact(w, b, p, ProgramOf(w, p)[k])
  {
    assert Fact(w, b, p, ProgramOf(w, p)[k]);
  }

  lemma ReadyLength(w: World, b: Books, p: Proc)
    requires !p.req.Close? && Ready(w, b, p)
    ensures 0 < |ProgramOf(w, p)|
  {
  }

  /** The body of a complete program: its context, its balances and its inserts were all checked. */
  lemma ReadyBody(w: World, b: Books, p: Proc)
    requires !p.req.Close? && Ready(w, b, p)
    ensures Prepare(w, true, DraftOf(w, p.req, p.source)).Ok?
    ensures forall i :: 0 <= i < |Accounts(w, p.req, p.source)| ==>
      Affordable(w, b.transfers, EntriesOf(w, DraftOf(w, p.req, p.source)), Accounts(w, p.req, p.source)[i])
  {
    hide DraftOf, Program, Opening, Closing, Prepare, EntriesOf, Affordable, LockOrder, Ready;
    var n, m := |Opening(p.req)|, |Accounts(w, p.req, p.source)|;
    ReadyLength(w, b, p);
    ProgramAt(w, p.req, p.source, 0);
    ProgramAt(w, p.req, p.source, n + 1 + m);
    FactAt(w, b, p, n + 1 + m);
    forall i | 0 <= i < m
      ensures Affordable(w, b.transfers, EntriesOf(w, DraftOf(w, p.req, p.source)), Accounts(w, p.req, p.source)[i])
    {
      ProgramAt(w, p.req, p.source, n + 2 + m + i);
      FactAt(w, b, p, n + 2 + m + i);
    }
  }

  lemma ClosingStart(w: World, req: Request, source: Option<Transfer>, k: nat)
    requires !req.Close? && k < |Closing(req, DraftOf(w, req, source))|
    ensures var start := |Opening(req)| + 2 + 2 * |Accounts(w, req, source)|;
      start + k < |Program(w, req, source)| &&
      Program(w, req, source)[start + k] == Closing(req, DraftOf(w, req, source))[k]
  {
    hide DraftOf, Opening, Closing, LockOrder;
    var start := |Opening(req)| + 2 + 2 * |Accounts(w, req, source)|;
    ProgramAt(w, req, source, 0);
    ProgramAt(w, req, source, start + k);
  }

  lemma ReadyClosing(w: World, b: Books, p: Proc, k: nat)
    requires !p.req.Close? && Ready(w, b, p) && k < |Closing(p.req, DraftOf(w, p.req, p.source))|
    ensures PostingFact(w, b, p, Closing(p.req, DraftOf(w, p.req, p.source))[k])
  {
    hide DraftOf, Program, Opening, Closing, LockOrder, Ready, PostingFact;
    ClosingStart(w, p.req, p.source, k);
    FactAt(w, b, p, |Opening(p.req)| + 2 + 2 * |Accounts(w, p.req, p.source)| + k);
  }

  lemma ReadyInserts(w: World, b: Books, p: Proc)
    requires !p.req.Close? && Ready(w, b, p)
    ensures var d := DraftOf(w, p.req, p.source);
      && TransferRowError(d).None? && KeyIndex(b.transfers, d.key) == |b.transfers|
      && ReverseFree(b.transfers, d.reverses) && d.period !in b.closed
      && PositiveRows(EntriesOf(w, d)) && DocumentError(p.req).None?
  {
    hide DraftOf, Program, Opening, Closing, LockOrder, Ready, Prepare, EntriesOf;
    hide PositiveRows, KeyIndex, ReversalIndex;
    hide TransferRowError, Affordable, NextNumber, PlanError;
    var d := DraftOf(w, p.req, p.source);
    var r := if d.reverses.Some? then 1 else 0;
    ClosingAt(p.req, d);
    ReadyClosing(w, b, p, 0);
    ReadyClosing(w, b, p, 1);
    if d.reverses.Some? { ReadyClosing(w, b, p, 2); }
    ReadyClosing(w, b, p, 2 + r);
    ReadyClosing(w, b, p, 3 + r);
    if p.req.Call? || p.req.Distribute? { ReadyClosing(w, b, p, 4 + r); }
  }

  lemma ReadyOpening(w: World, b: Books, p: Proc)
    requires !p.req.Close? && Ready(w, b, p)
    ensures PlanError(w, b.transfers, p.req).None?
    ensures p.req.Call? || p.req.Distribute? ==> p.number == NextNumber(b, p.req)
  {
    hide Program, Opening, Closing, LockOrder, Ready, Prepare, PlanFor, CommitmentsAllow, NextNumber;
    if p.req.Call? || p.req.Distribute? {
      OpeningAt(w, p.req, p.source);
      FactAt(w, b, p, 1);
      FactAt(w, b, p, 2);
      if p.req.Call? { FactAt(w, b, p, 3); }
    }
  }

  lemma OpeningAt(w: World, req: Request, source: Option<Transfer>)
    requires req.Call? || req.Distribute?
    ensures var prog := Program(w, req, source);
      && |prog| > 4 && prog[0] == Acquire(FundLock(req.fund)) && prog[1] == ReadPeriod
      && (req.Call? ==> prog[2] == ReadPaidIn && prog[3] == ReadNumber)
      && (req.Distribute? ==> prog[2] == ReadNumber)
  {
    ProgramAt(w, req, source, 0);
    ProgramAt(w, req, source, 1);
    ProgramAt(w, req, source, 2);
    ProgramAt(w, req, source, 3);
  }

  lemma DraftKey(w: World, req: Request, source: Option<Transfer>)
    requires !req.Close?
    ensures DraftOf(w, req, source).key == req.key && DraftOf(w, req, source).hash == HashOf(req)
  {
  }

  /** Every check of `post_transfer` passes on the committed rows. */
  ghost predicate Checked(w: World, b: Books, d: Draft) {
    && Prepare(w, true, d).Ok? && d.period !in b.closed
    && (forall i :: 0 <= i < |LockOrder(w, d.legs)| ==>
          Affordable(w, b.transfers, EntriesOf(w, d), LockOrder(w, d.legs)[i]))
    && TransferRowError(d).None? && KeyIndex(b.transfers, d.key) == |b.transfers|
    && ReverseFree(b.transfers, d.reverses) && PositiveRows(EntriesOf(w, d))
  }

  lemma CheckedPosts(w: World, b: Books, d: Draft)
    requires Checked(w, b, d)
    ensures Posted(w, b, d) == Ok(Made(d, EntriesOf(w, d)))
  {
    PostedFromParts(w, b, d, EntriesOf(w, d));
  }

  lemma ReadyChecked(w: World, b: Books, p: Proc)
    requires !p.req.Close? && Ready(w, b, p)
    ensures Checked(w, b, DraftOf(w, p.req, p.source))
  {
    hide DraftOf, Program, Prepare, EntriesOf, Affordable, Ready, LockOrder, PositiveRows, KeyIndex, ReverseFree;
    ReadyBody(w, b, p);
    ReadyInserts(w, b, p);
    assert Accounts(w, p.req, p.source) == LockOrder(w, DraftOf(w, p.req, p.source).legs);
  }

  lemma CheckedCreates(w: World, b: Books, p: Proc)
    requires !p.req.Close? && Checked(w, b, DraftOf(w, p.req, p.source))
    requires PlanError(w, b.transfers, p.req).None? && DocumentError(p.req).None?
    requires p.req.Call? || p.req.Distribute? ==> p.number == NextNumber(b, p.req)
    ensures Created(w, b, p.req, p.source) == Ok(CommitBooks(w, b, p))
  {
    hide Checked, DraftOf, PlanError, DocumentError, NextNumber, EntriesOf, Posted;
    CheckedPosts(w, b, DraftOf(w, p.req, p.source));
    var d := DraftOf(w, p.req, p.source);
    DocumentIgnoresNumber(AddTransfer(b, Made(d, EntriesOf(w, d))), p.req, p.number, NextNumber(b, p.req),
                          |b.transfers|);
  }

  lemma DocumentIgnoresNumber(b: Books, req: Request, m: nat, n: nat, id: TransferId)
    requires (req.Call? || req.Distribute?) ==> m == n
    ensures WithDocument(b, req, m, id) == WithDocument(b, req, n, id)
  {
  }

  /** A posting ready to commit adds exactly what its create closure would make of the rows as they are now. */
  lemma ReadyCreates(w: World, b: Books, p: Proc)
    requires !p.req.Close? && Ready(w, b, p)
    ensures Created(w, b, p.req, p.source) == Ok(CommitBooks(w, b, p))
  {
    hide Ready, Checked, Created, CommitBooks, DraftOf, PlanError, DocumentError, NextNumber;
    ReadyChecked(w, b, p);
    ReadyInserts(w, b, p);
    ReadyOpening(w, b, p);
    CheckedCreates(w, b, p);
  }

  lemma ReadyReverses(w: World, b: Books, p: Proc)
    requires p.req.Reverse? && Ready(w, b, p)
    ensures ReverseError(b.transfers, p.req.target, p.req.key).None?
  {
    ReadyInserts(w, b, p);
    assert DraftOf(w, p.req, p.source).reverses == Some(p.req.target);
  }

  lemma ReadyCloses(w: World, b: Books, p: Proc)
    requires p.req.Close? && Ready(w, b, p)
    ensures ClosedBooks(w, b, p.req.fund, p.req.closing) == (CommitBooks(w, b, p), PeriodClosed(true))
  {
    var prog := ProgramOf(w, p);
    assert Fact(w, b, p, prog[0]) && Fact(w, b, p, prog[1]) && Fact(w, b, p, prog[2]);
  }

  lemma ReadyRuns(w: World, b: Books, p: Proc)
    requires !p.req.Close? && Ready(w, b, p)
    ensures RunOnce(w, b, p.req, p.source) == (CommitBooks(w, b, p), Transferred(|b.transfers|, true))
  {
    hide Created, CommitBooks, DraftOf, HashOf, Ready, Replayed, PlanError, DocumentError, KeyIndex;
    ReadyCreates(w, b, p);
    ReadyInserts(w, b, p);
    DraftKey(w, p.req, p.source);
  }

  lemma ReadyIsValid(w: World, b: Books, p: Proc)
    requires p.req.PostLegs? && Ready(w, b, p)
    ensures ValidLegs(p.req.legs)
  {
    hide Ready, Prepare, ValidLegs;
    ReadyBody(w, b, p);
    PreparedDraft(w, true, DraftOf(w, p.req, p.source));
  }

  lemma ReadySource(w: World, b: Books, p: Proc)
    requires Ready(w, b, p)
    ensures p.source == SourceOf(b.transfers, p.req)
  {
  }

  /**
   * Refinement, one commit: a process that commits does what its request, run alone on the committed rows at
   * that moment, would do - every check of the serial operation passes at its turn.
   */
  lemma CommitIsSerial(w: World, b: Books, p: Proc)
    requires Ready(w, b, p)
    ensures Execute(w, b, p.req) == (CommitBooks(w, b, p), CommitResponse(b, p))
  {
    hide CommitBooks, Ready, RunOnce, ReverseError, ClosedBooks, ValidLegs;
    ReadySource(w, b, p);
    match p.req
    case Close(_, _) => ReadyCloses(w, b, p);
    case PostLegs(_, _, _, _, _) =>
      ReadyRuns(w, b, p);
      ReadyIsValid(w, b, p);
    case Reverse(_, _, _, _) =>
      ReadyRuns(w, b, p);
      ReadyReverses(w, b, p);
    case _ => ReadyRuns(w, b, p);
  }
}
