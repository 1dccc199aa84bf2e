/** Bounded retry after a deadlock or a serialization failure (ledger/retry.py). */
module Retry {
  import opened Results
  import opened Types
  import opened Queries
  import opened Posting
  import opened Operations
  import opened Invariants
  import opened Commitments
  import opened Safety
  import opened Ledgers

  /** deadlock_detected and serialization_failure: the server rolled the transaction back, so it can run again. */
  const RETRYABLE_SQLSTATES: set<string> := {"40P01", "40001"}

  /** A deadlock, or a failure to serialize. */
  predicate Transient(sqlstate: string) { sqlstate == "40P01" || sqlstate == "40001" }

  predicate AllTransient(faults: seq<Option<string>>, n: nat)
    requires n <= |faults|
  {
    forall k :: 0 <= k < n ==> faults[k].Some? && Transient(faults[k].value)
  }

  predicate Retryable(sqlstate: string, inTransaction: bool): (r: bool)
    ensures r <==> Transient(sqlstate) && !inTransaction
  {
    sqlstate in RETRYABLE_SQLSTATES && !inTransaction
  }

  /**
   * `with_deadlock_retry` around a request. Every attempt does all of its work; `faults[k]` is the SQLSTATE with
   * which the server then aborts attempt k + 1 and rolls it back, or None if that attempt commits. However many
   * attempts are aborted, the books end up as if the request had run once, or as if it had not run at all.
   */
  method ServeWithRetry(ledger: Ledger, req: Request, faults: seq<Option<string>>, attempts: nat, inTransaction: bool)
    returns (response: Response, calls: nat)
    requires 1 <= attempts <= |faults|
    modifies ledger
    ensures 1 <= calls <= attempts
    ensures AllTransient(faults, calls - 1) && (calls > 1 ==> !inTransaction)
    ensures calls == attempts || faults[calls - 1].None? || inTransaction
      || !Transient(faults[calls - 1].value)
    ensures (ledger.Rows(), response) ==
      if faults[calls - 1].None? then Execute(ledger.w, old(ledger.Rows()), req)
      else (old(ledger.Rows()), Failed(OperationalError))
    ensures ledger.snapshots == old(ledger.snapshots)
  {
    hide Execute, Retryable, Transient;
    calls, response := 0, Failed(OperationalError);
    for attempt := 1 to attempts + 1
      invariant attempt <= attempts
      invariant AllTransient(faults, attempt - 1) && (attempt > 1 ==> !inTransaction)
      invariant ledger.Rows() == old(ledger.Rows()) && ledger.snapshots == old(ledger.snapshots)
      invariant response == Failed(OperationalError)
    {
      calls := attempt;
      var savepoint := ledger.Rows();
      response := ledger.Serve(req);
      if faults[attempt - 1].None? {
        return;
      }
      ledger.RollBack(savepoint);
      response := Failed(OperationalError);
      if !Retryable(faults[attempt - 1].value, inTransaction) || attempt == attempts {
        return;
      }
    }
    assert false;
  }

  // ---- Running again after success -----------------------------------------------------------------------

  lemma CreatedTransfer(w: World, b: Books, req: Request, id: TransferId)
    requires !req.Close? && Execute(w, b, req).1 == Transferred(id, true)
    ensures var after := Execute(w, b, req).0;
      && id == |b.transfers| && |after.transfers| == id + 1 && after.transfers[..id] == b.transfers
      && after.transfers[id].key == req.key && after.transfers[id].hash == HashOf(req)
      && (req.Reverse? ==> req.target < id && b.transfers[req.target].kind != Reversal
                           && after.transfers[id].reverses == Some(req.target))
  {
    hide Execute, Created, Posted, HashOf, PlanFor, Business, ValidLegs, ReverseError, KeyIndex;
    var d := DraftOf(w, req, SourceOf(b.transfers, req));
    CreatedFrom(w, b, req);
    PostedParts(w, b, d);
    assert d.key == req.key && d.hash == HashOf(req) && (req.Reverse? ==> d.reverses == Some(req.target));
  }

  /**
   * A request that created a transfer replays it for ever: run again against any later books, it changes nothing
   * and names the same transfer.
   */
  lemma CreatedReplaysForEver(w: World, b: Books, later: Books, req: Request, id: TransferId)
    requires !req.Close? && Execute(w, b, req).1 == Transferred(id, true)
    requires Extends(Execute(w, b, req).0, later) && BusinessOk(w, later)
    ensures Execute(w, later, req) == (later, Transferred(id, false))
  {
    hide Created, HashOf, PlanFor, TransfersOk, CashNonNegative, Linked, WithinCommitments, Numbered, ClosedPrefix;
    var after := Execute(w, b, req).0;
    CreatedTransfer(w, b, req, id);
    var ts := later.transfers;
    assert ts[id] == ts[..id + 1][id];
    var i := KeyIndex(ts, req.key);
    assert i == id;
    ReplayFinds(later, req, id);
    if req.Reverse? {
      assert ts[req.target] == ts[..id + 1][req.target] == b.transfers[req.target];
      assert ReversalIndex(ts, req.target) == id;
    }
  }
}
