/** Stored net asset values over a run (operations/statements.py). */
module Snapshots {
  import opened Results
  import opened Types
  import opened Chart
  import opened Operations
  import opened Commitments
  import opened Machine
  import opened Serializability
  import opened Safety
  import opened Statements

  /** `snapshot_nav` of a period, run after the first `at` actions. */
  datatype Take = Take(at: nat, period: PeriodId)

  predicate TakesOk(w: World, actions: seq<Action>, takes: seq<Take>) {
    && (forall k :: 0 <= k < |takes| ==> takes[k].at <= |actions| && takes[k].period < |w.periods|)
    && (forall j, k :: 0 <= j < k < |takes| ==> takes[j].at <= takes[k].at)
  }

  /** One row for each fund and end date. */
  function Key(w: World, p: PeriodId): (FundId, Date)
    requires p < |w.periods|
  {
    (w.periods[p].fund, w.periods[p].end)
  }

  function NavAt(w: World, actions: seq<Action>, t: Take): int
    requires t.at <= |actions| && t.period < |w.periods|
  {
    NavThrough(w, Run(w, actions[..t.at]).books.transfers, t.period)
  }

  /** The stored rows after some snapshots: taking one again writes over the row. */
  function Stored(w: World, actions: seq<Action>, takes: seq<Take>): map<(FundId, Date), int>
    requires TakesOk(w, actions, takes)
  {
    if takes == [] then map[]
    else
      var n := |takes| - 1;
      var earlier := Stored(w, actions, takes[..n]);
      Snapshotted(w, Run(w, actions[..takes[n].at]).books.transfers, earlier, takes[n].period)
  }

  /** The stored row is the value at the last snapshot with its key. */
  lemma {:induction false} StoredIsLastTaken(w: World, actions: seq<Action>, takes: seq<Take>, k: nat)
    requires TakesOk(w, actions, takes) && k < |takes|
    requires forall j :: k < j < |takes| ==> Key(w, takes[j].period) != Key(w, takes[k].period)
    ensures var key := Key(w, takes[k].period);
      key in Stored(w, actions, takes) && Stored(w, actions, takes)[key] == NavAt(w, actions, takes[k])
    decreases |takes|
  {
    hide Run, NavThrough;
    var n := |takes| - 1;
    if k < n {
      StoredIsLastTaken(w, actions, takes[..n], k);
    }
  }

  lemma LastWithKey(w: World, actions: seq<Action>, takes: seq<Take>, k: nat) returns (j: nat)
    requires TakesOk(w, actions, takes) && k < |takes|
    ensures k <= j < |takes| && Key(w, takes[j].period) == Key(w, takes[k].period)
    ensures forall i :: j < i < |takes| ==> Key(w, takes[i].period) != Key(w, takes[k].period)
  {
    j := |takes| - 1;
    while Key(w, takes[j].period) != Key(w, takes[k].period)
      invariant k <= j < |takes|
      invariant forall i :: j < i < |takes| ==> Key(w, takes[i].period) != Key(w, takes[k].period)
      decreases j
    {
      j := j - 1;
    }
  }

  lemma StillClosed(w: World, actions: seq<Action>, m: nat, n: nat, p: PeriodId)
    requires WorldOk(w) && BusinessActions(w, actions) && m <= n <= |actions|
    requires p in Run(w, actions[..m]).books.closed
    ensures p in Run(w, actions[..n]).books.closed
  {
    hide WorldOk, Run, Business;
    assert actions[..n][..m] == actions[..m];
    ClosingIsFinal(w, actions[..n], m);
  }

  lemma NavFromThenOn(w: World, actions: seq<Action>, n: nat, p: PeriodId)
    requires WorldOk(w) && BusinessActions(w, actions) && n <= |actions| && p < |w.periods|
    requires p in Run(w, actions[..n]).books.closed
    ensures NavThrough(w, Run(w, actions).books.transfers, p) == NavThrough(w, Run(w, actions[..n]).books.transfers, p)
  {
    hide WorldOk, Run, Reachable, Extends, NavThrough, Business;
    RunsAreReachable(w, actions[..n]);
    RunsAreReachable(w, actions);
    ReachableParts(w, Run(w, actions[..n]));
    ReachableParts(w, Run(w, actions));
    ClosingIsFinal(w, actions, n);
    ClosedNavFrozen(w, Run(w, actions[..n]).books, Run(w, actions).books, p);
  }

  predicate OwnEndDate(w: World, p: PeriodId)
    requires p < |w.periods|
  {
    forall q: nat :: q < |w.periods| && Key(w, q) == Key(w, p) ==> q == p
  }

  /**
   * A snapshot of a closed period never goes stale: once it is taken, the stored row is the period's net asset
   * value in every later state, however often snapshots are taken again - provided no other period of the fund
   * ends on the same day, since two such periods share the row.
   */
  lemma SnapshotNeverStale(w: World, actions: seq<Action>, takes: seq<Take>, k: nat)
    requires WorldOk(w) && BusinessActions(w, actions) && TakesOk(w, actions, takes) && k < |takes|
    requires takes[k].period in Run(w, actions[..takes[k].at]).books.closed && OwnEndDate(w, takes[k].period)
    ensures var p := takes[k].period;
      && Key(w, p) in Stored(w, actions, takes)
      && Stored(w, actions, takes)[Key(w, p)] == NavThrough(w, Run(w, actions).books.transfers, p)
  {
    hide WorldOk, Run, NavThrough, Stored, Business;
    var j := LastWithKey(w, actions, takes, k);
    assert takes[j].period == takes[k].period;
    StoredIsLastTaken(w, actions, takes, j);
    StillClosed(w, actions, takes[k].at, takes[j].at, takes[k].period);
    NavFromThenOn(w, actions, takes[j].at, takes[k].period);
  }

  /** Two periods that end on one day share the row: it is the value of the one taken last. */
  lemma SharedEndDateIsOverwritten(w: World, actions: seq<Action>, takes: seq<Take>)
    requires WorldOk(w) && BusinessActions(w, actions) && TakesOk(w, actions, takes) && |takes| >= 2
    requires var p, q := takes[|takes| - 2].period, takes[|takes| - 1].period;
      Key(w, p) == Key(w, q) && q in Run(w, actions[..takes[|takes| - 1].at]).books.closed
    ensures Stored(w, actions, takes)[Key(w, takes[|takes| - 2].period)]
      == NavThrough(w, Run(w, actions).books.transfers, takes[|takes| - 1].period)
  {
    hide WorldOk, Run, NavThrough, Business;
    var n := |takes| - 1;
    StoredIsLastTaken(w, actions, takes, n);
    NavFromThenOn(w, actions, takes[n].at, takes[n].period);
  }
}
