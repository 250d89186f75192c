/** The tracker with its queue, and the loop that flushes it. */
module Diagnostics {
  import opened Options
  import opened DiagnosticsModel

  class DiagnosticsTracker {
    const enabled: bool
    const appSessionId: string
    var entries: seq<Entry>
    var consecutiveFailures: nat
    var syncing: bool
    ghost var nextId: nat

    ghost function Model(): Tracker
      reads this
    {
      Tracker(enabled, appSessionId, entries, consecutiveFailures, syncing, nextId)
    }

    constructor (enabled: bool, session: string)
      ensures Model() == Start(enabled, session)
    {
      this.enabled, appSessionId := enabled, session;
      entries, consecutiveFailures, syncing, nextId := [], 0, false, 0;
    }

    /** `id` is the fresh id of the new entry, `markerId` that of a marker should one be needed. */
    method TrackEntry(name: string, properties: Properties, id: nat, at: int, markerId: nat, later: int)
      requires id == nextId && markerId == nextId + 1
      modifies this`entries, this`nextId
      ensures Model() == Track(old(Model()), name, properties, at, later)
    {
      if !enabled { return; }
      var entry := Entry(id, ENTRY_VERSION, name, properties, appSessionId, at);
      if |entries| >= MAX_STORED_ENTRIES {
        entries := [];
        nextId := nextId + 1;
        entries := entries + [Entry(markerId, ENTRY_VERSION, STORED_LIMIT_REACHED, map[], appSessionId, later)];
        nextId := nextId + 1;
        return;
      }
      entries := entries + [entry];
      nextId := nextId + 1;
    }

    method Take() returns (batch: Option<seq<Entry>>)
      modifies this`entries, this`syncing
      ensures (Model(), batch) == TakeBatch(old(Model()))
    {
      var wasSyncing := syncing;
      syncing := true;
      if wasSyncing { return None; }
      if entries == [] {
        syncing := false;
        return None;
      }
      var count := if |entries| < MAX_EVENTS_PER_REQUEST then |entries| else MAX_EVENTS_PER_REQUEST;
      batch := Some(entries[..count]);
      entries := entries[count..];
    }

    method Succeeded()
      modifies this`consecutiveFailures, this`syncing
      ensures Model() == BatchSucceeded(old(Model()))
    {
      consecutiveFailures := 0;
      syncing := false;
    }

    method FailedRetryable(batch: seq<Entry>, id: nat, at: int)
      requires id == nextId
      modifies this
      ensures Model() == BatchFailedRetryable(old(Model()), batch, at)
    {
      consecutiveFailures := consecutiveFailures + 1;
      var failures := consecutiveFailures;
      if failures >= MAX_SYNC_RETRIES {
        entries := [];
      } else {
        entries := batch + entries;
      }
      syncing := false;
      if failures >= MAX_SYNC_RETRIES {
        consecutiveFailures := 0;
        TrackEntry(SYNC_RETRIES_REACHED, map[], id, at, id + 1, at);
      }
    }

    method FailedFatal(id: nat, at: int)
      requires id == nextId
      modifies this
      ensures Model() == BatchFailedFatal(old(Model()), at)
    {
      entries := [];
      consecutiveFailures := 0;
      syncing := false;
      TrackEntry(CLEARING_AFTER_FAILURE, map[], id, at, id + 1, at);
    }
  }

  method EndPost(tracker: DiagnosticsTracker, batch: seq<Entry>, result: PostOutcome, id: nat, at: int)
    requires id == tracker.nextId
    modifies tracker
    ensures tracker.Model() == EndBatch(old(tracker.Model()), batch, result, at)
    ensures result == Accepted ==> tracker.nextId == id
  {
    match result
    case Accepted => tracker.Succeeded();
    case Retryable => tracker.FailedRetryable(batch, id, at);
    case Fatal => tracker.FailedFatal(id, at);
  }

  /** `flush_diagnostics`: `outcome(k)` is what becomes of its `k`-th post, `now(k)` when. */
  method FlushDiagnostics(tracker: DiagnosticsTracker, outcome: nat -> PostOutcome, now: nat -> int, id: nat)
    returns (posted: seq<seq<Entry>>, ok: bool)
    requires id == tracker.nextId
    modifies tracker
    ensures (tracker.Model(), posted, ok) == Flush(old(tracker.Model()), outcome, now, 0)
  {
    posted := [];
    ghost var untaken := tracker.Model();
    ghost var all := Flush(untaken, outcome, now, 0);
    assert [] + all.1 == all.1;
    var batch := tracker.Take();
    while batch.Some?
      invariant tracker.nextId == id
      invariant TakeBatch(untaken) == (tracker.Model(), batch)
      invariant all == Prefixed(posted, Flush(untaken, outcome, now, |posted|))
      decreases |untaken.entries|
    {
      var result := outcome(|posted|);
      FlushTurn(untaken, outcome, now, posted, tracker.Model(), batch.value);
      EndPost(tracker, batch.value, result, id, now(|posted|));
      posted := posted + [batch.value];
      if result != Accepted { return posted, false; }
      untaken := tracker.Model();
      batch := tracker.Take();
    }
    FlushEnds(untaken, outcome, now, posted);
    ok := true;
  }

  /** One turn of the loop: a post moves from what is ahead to what is done. */
  lemma FlushTurn(t: Tracker, outcome: nat -> PostOutcome, now: nat -> int, posted: seq<seq<Entry>>, taken: Tracker, batch: seq<Entry>)
    requires TakeBatch(t) == (taken, Some(batch))
    ensures |BatchSucceeded(taken).entries| < |t.entries|
    ensures
      var n := |posted|;
      var after := EndBatch(taken, batch, outcome(n), now(n));
      Prefixed(posted, Flush(t, outcome, now, n)) ==
      if outcome(n) == Accepted then Prefixed(posted + [batch], Flush(after, outcome, now, n + 1))
      else (after, posted + [batch], false)
  {
    var n := |posted|;
    var rest := Flush(EndBatch(taken, batch, outcome(n), now(n)), outcome, now, n + 1);
    assert posted + ([batch] + rest.1) == posted + [batch] + rest.1;
  }

  lemma FlushEnds(t: Tracker, outcome: nat -> PostOutcome, now: nat -> int, posted: seq<seq<Entry>>)
    requires TakeBatch(t).1.None?
    ensures TakeBatch(t).0 == t
    ensures Prefixed(posted, Flush(t, outcome, now, |posted|)) == (t, posted, true)
  {
    assert posted + [] == posted;
  }

  ghost function Prefixed(posted: seq<seq<Entry>>, r: (Tracker, seq<seq<Entry>>, bool)): (Tracker, seq<seq<Entry>>, bool) {
    (r.0, posted + r.1, r.2)
  }
}
