/** What each call does to the queue, what a flush posts, and that every clear is reported. */
module DiagnosticsResults {
  import opened Options
  import opened DiagnosticsModel
  import opened DiagnosticsTheorems

  predicate Describes(e: Entry, t: Tracker, name: string, properties: Properties, at: int) {
    e.version == 1 && e.appSessionId == t.appSessionId && e.name == name && e.properties == properties && e.timestamp == at
  }

  /** The queue is one entry without properties. */
  predicate OnlyMarker(after: Tracker, name: string, at: int) {
    |after.entries| == 1 && Describes(after.entries[0], after, name, map[], at)
  }

  predicate SameSettings(t: Tracker, after: Tracker) {
    after.enabled == t.enabled && after.appSessionId == t.appSessionId
  }

  // ---- Whole calls ---------------------------------------------------------------------

  /** An entry is appended under a new id; at 2000 it replaces the whole queue by a marker made later; disabled, nothing happens. */
  lemma TracksExactly(t: Tracker, name: string, properties: Properties, at: int, later: int)
    ensures
      var after := Track(t, name, properties, at, later);
      && (!t.enabled ==> after == t)
      && SameSettings(t, after) && after.failures == t.failures && after.syncing == t.syncing
      && (t.enabled && |t.entries| < 2000 ==>
            && |after.entries| == |t.entries| + 1 && t.entries <= after.entries
            && Describes(after.entries[|t.entries|], t, name, properties, at)
            && t.nextId <= after.entries[|t.entries|].id < after.nextId)
      && (t.enabled && |t.entries| >= 2000 ==> OnlyMarker(after, "max_events_stored_limit_reached", later))
  {
  }

  /** A batch that was not accepted leaves at most a marker if the failure was fatal or the third in a row; else it is first again. */
  lemma BatchEndsExactly(t: Tracker, batch: seq<Entry>, o: PostOutcome, at: int)
    ensures
      var after := EndBatch(t, batch, o, at);
      && SameSettings(t, after) && !after.syncing
      && (o == Accepted ==> after.entries == t.entries && after.failures == 0)
      && (o == Retryable && t.failures < 2 ==> after.entries == batch + t.entries && after.failures == t.failures + 1)
      && (o == Fatal || (o == Retryable && t.failures >= 2) ==>
            && after.failures == 0
            && (!t.enabled ==> after.entries == [])
            && (t.enabled ==>
                  OnlyMarker(after, if o == Fatal then "clearing_diagnostics_after_failed_sync" else "max_diagnostics_sync_retries_reached", at)))
  {
  }

  /** Batches of 200 and a last, shorter one. */
  function Batch(entries: seq<Entry>, k: nat): seq<Entry>
    requires 200 * k <= |entries|
  {
    if |entries| <= 200 * k + 200 then entries[200 * k..] else entries[200 * k..200 * k + 200]
  }

  lemma BatchLater(entries: seq<Entry>, k: nat)
    requires 200 * (k + 1) <= |entries|
    ensures Batch(entries, k + 1) == Batch(entries[200..], k)
  {
  }

  function AfterFirst(entries: seq<Entry>): seq<Entry> {
    if |entries| <= 200 then [] else entries[200..]
  }

  predicate Cut(entries: seq<Entry>, posted: seq<seq<Entry>>) {
    forall k :: 0 <= k < |posted| ==> 200 * k < |entries| && posted[k] == Batch(entries, k)
  }

  predicate AllAccepted(outcome: nat -> PostOutcome, n: nat, m: nat) {
    forall k :: n <= k < m ==> outcome(k) == Accepted
  }

  lemma CutLater(entries: seq<Entry>, posted: seq<seq<Entry>>)
    requires entries != [] && Cut(AfterFirst(entries), posted)
    ensures Cut(entries, [Batch(entries, 0)] + posted)
    ensures posted != [] ==> 200 * |posted| < |entries| && entries[200 * |posted|..] == AfterFirst(entries)[200 * (|posted| - 1)..]
  {
    forall k | 0 < k < |posted| + 1 ensures 200 * k < |entries| && posted[k - 1] == Batch(entries, k) {
      assert 200 * (k - 1) < |AfterFirst(entries)|;
      BatchLater(entries, k - 1);
    }
    if posted != [] { assert 200 * (|posted| - 1) < |AfterFirst(entries)|; }
  }

  lemma FlushBegins(t: Tracker, outcome: nat -> PostOutcome, now: nat -> int, n: nat)
    requires !t.syncing && t.entries != []
    ensures
      var (taken, first) := (t.(syncing := true, entries := AfterFirst(t.entries)), Batch(t.entries, 0));
      if outcome(n) != Accepted then Flush(t, outcome, now, n) == (EndBatch(taken, first, outcome(n), now(n)), [first], false)
      else
        var (rest, posted, ok) := Flush(taken.(failures := 0, syncing := false), outcome, now, n + 1);
        Flush(t, outcome, now, n) == (rest, [first] + posted, ok)
  {
    if |t.entries| <= 200 {
      assert t.entries[..|t.entries|] == t.entries[0..] && t.entries[|t.entries|..] == [];
    }
  }

  /** A flush goes on through accepted batches and answers whether there was no other; an empty queue has none. */
  lemma {:induction false} FlushAnswersExactly(t: Tracker, outcome: nat -> PostOutcome, now: nat -> int, n: nat)
    requires !t.syncing
    ensures
      var (_, posted, ok) := Flush(t, outcome, now, n);
      && (t.entries == [] <==> posted == [])
      && AllAccepted(outcome, n, n + |posted| - if ok then 0 else 1)
      && (ok || (posted != [] && outcome(n + |posted| - 1) != Accepted))
    decreases |t.entries|
  {
    if t.entries != [] {
      FlushBegins(t, outcome, now, n);
      if outcome(n) == Accepted {
        FlushAnswersExactly(t.(entries := AfterFirst(t.entries), failures := 0), outcome, now, n + 1);
      }
    }
  }

  /** It posts the queue's batches in order, all of them if it succeeds. */
  lemma {:induction false} FlushPostsExactly(t: Tracker, outcome: nat -> PostOutcome, now: nat -> int, n: nat)
    requires !t.syncing
    ensures Cut(t.entries, Flush(t, outcome, now, n).1)
    ensures Flush(t, outcome, now, n).2 ==> 200 * |Flush(t, outcome, now, n).1| >= |t.entries|
    decreases |t.entries|
  {
    if t.entries != [] {
      FlushBegins(t, outcome, now, n);
      if outcome(n) == Accepted {
        var next := t.(entries := AfterFirst(t.entries), failures := 0);
        FlushPostsExactly(next, outcome, now, n + 1);
        CutLater(t.entries, Flush(next, outcome, now, n + 1).1);
      } else {
        assert Cut(t.entries, [Batch(t.entries, 0)]);
      }
    }
  }

  /** The queue after a batch failed at this time, with so many failures in a row before it. */
  predicate Stopped(after: Tracker, batchAndRest: seq<Entry>, failures: nat, o: PostOutcome, at: int) {
    if o == Retryable && failures < 2 then after.failures == failures + 1 && after.entries == batchAndRest
    else
      && after.failures == 0
      && (after.enabled ==>
            OnlyMarker(after, if o == Fatal then "clearing_diagnostics_after_failed_sync" else "max_diagnostics_sync_retries_reached", at))
  }

  /** What the flush had not yet had accepted. */
  function Unaccepted(entries: seq<Entry>, posted: nat): seq<Entry> {
    if 1 <= posted && 200 * (posted - 1) <= |entries| then entries[200 * (posted - 1)..] else []
  }

  lemma UnacceptedLater(entries: seq<Entry>, posted: seq<seq<Entry>>)
    requires entries != [] && posted != [] && Cut(AfterFirst(entries), posted)
    ensures Unaccepted(entries, |posted| + 1) == Unaccepted(AfterFirst(entries), |posted|)
  {
    CutLater(entries, posted);
  }

  /** The last of the posted batches failed; only an accepted one before it restarts the count. */
  predicate StoppedAfter(t: Tracker, after: Tracker, posted: seq<seq<Entry>>, outcome: nat -> PostOutcome, now: nat -> int, n: nat) {
    && posted != []
    && var last := n + |posted| - 1;
       Stopped(after, Unaccepted(t.entries, |posted|), if |posted| == 1 then t.failures else 0, outcome(last), now(last))
  }

  lemma StoppedLater(t: Tracker, after: Tracker, posted: seq<seq<Entry>>, outcome: nat -> PostOutcome, now: nat -> int, n: nat)
    requires t.entries != [] && Cut(AfterFirst(t.entries), posted)
    requires StoppedAfter(t.(entries := AfterFirst(t.entries), failures := 0), after, posted, outcome, now, n + 1)
    ensures StoppedAfter(t, after, [Batch(t.entries, 0)] + posted, outcome, now, n)
  {
    UnacceptedLater(t.entries, posted);
  }

  /** A flush that fails keeps the failed batch and what follows it, or clears them; an accepted batch restarts the count of failures. */
  lemma {:induction false} FlushStopsExactly(t: Tracker, outcome: nat -> PostOutcome, now: nat -> int, n: nat)
    requires !t.syncing && !Flush(t, outcome, now, n).2
    ensures
      var (after, posted, _) := Flush(t, outcome, now, n);
      !after.syncing && SameSettings(t, after) && StoppedAfter(t, after, posted, outcome, now, n)
    decreases |t.entries|
  {
    FlushBegins(t, outcome, now, n);
    if outcome(n) == Accepted {
      var next := t.(entries := AfterFirst(t.entries), failures := 0);
      FlushStopsExactly(next, outcome, now, n + 1);
      FlushPostsExactly(next, outcome, now, n + 1);
      StoppedLater(t, Flush(next, outcome, now, n + 1).0, Flush(next, outcome, now, n + 1).1, outcome, now, n);
    } else {
      StopsAtFirst(t, outcome(n), now(n));
    }
  }

  lemma StopsAtFirst(t: Tracker, o: PostOutcome, at: int)
    requires t.entries != [] && o != Accepted
    ensures
      var taken := t.(syncing := true, entries := AfterFirst(t.entries));
      var after := EndBatch(taken, Batch(t.entries, 0), o, at);
      !after.syncing && SameSettings(t, after) && Stopped(after, Unaccepted(t.entries, 1), t.failures, o, at)
  {
    BatchEndsExactly(t.(syncing := true, entries := AfterFirst(t.entries)), Batch(t.entries, 0), o, at);
    assert Batch(t.entries, 0) + AfterFirst(t.entries) == Unaccepted(t.entries, 1);
  }

  /** A flush that succeeds leaves an empty queue and no failures, or found it empty. */
  lemma {:induction false} FlushSucceedsExactly(t: Tracker, outcome: nat -> PostOutcome, now: nat -> int, n: nat)
    requires !t.syncing && Flush(t, outcome, now, n).2
    ensures Flush(t, outcome, now, n).0 == t.(entries := [], failures := if t.entries == [] then t.failures else 0)
    decreases |t.entries|
  {
    if t.entries != [] {
      FlushBegins(t, outcome, now, n);
      FlushSucceedsExactly(t.(entries := AfterFirst(t.entries), failures := 0), outcome, now, n + 1);
    }
  }

  /** While a flush holds the flag, another posts nothing and answers at once. */
  lemma BusyFlushesNothing(t: Tracker, outcome: nat -> PostOutcome, now: nat -> int, n: nat)
    requires t.syncing
    ensures Flush(t, outcome, now, n) == (t, [], true)
  {
  }

  // ---- Calls in turns ------------------------------------------------------------------

  /** A call that no other interrupts: its turn, and then the reset and the marker it has come to owe. */
  function Settled(s: System, op: Op, at: int): System {
    var turn := Next(s, op);
    var reset := if turn.resets > s.resets then Next(turn, Resets) else turn;
    if |reset.markers| > |s.markers| then Next(reset, Marks(|s.markers|, at)) else reset
  }

  /** Run without interruption, the turns are the whole call, and owe nothing more. */
  lemma TurnsAreCalls(s: System, op: Op, later: int)
    requires op.Tracks? || (op.Ends? && s.batch.Some?)
    ensures
      var after := Settled(s, op, later);
      && after.resets == s.resets && after.markers == s.markers
      && (op.Tracks? ==> after.tracker == Track(s.tracker, op.name, op.properties, op.at, later) && after.batch == s.batch && after.acknowledged == s.acknowledged)
      && (op.Ends? ==>
            && after.tracker == EndBatch(s.tracker, s.batch.value, op.outcome, later) && after.batch == None
            && after.acknowledged == if op.outcome == Accepted then s.acknowledged + s.batch.value else s.acknowledged)
  {
    var turn := Next(s, op);
    assert s.markers + [] == s.markers;
    var owed := [STORED_LIMIT_REACHED, SYNC_RETRIES_REACHED, CLEARING_AFTER_FAILURE];
    forall name | name in owed
      ensures (s.markers + [name])[..|s.markers|] + (s.markers + [name])[|s.markers| + 1..] == s.markers
    {
    }
  }

  // ---- Every clear is reported ---------------------------------------------------------

  /** Which report the step's clear calls for. */
  function Cleared(s: System, op: Op): Option<string> {
    if (op.Tracks? || (op.Marks? && op.index < |s.markers|)) && s.tracker.enabled && |s.tracker.entries| >= 2000 then
      Some("max_events_stored_limit_reached")
    else if op.Ends? && s.batch.Some? && op.outcome == Fatal then Some("clearing_diagnostics_after_failed_sync")
    else if op.Ends? && s.batch.Some? && op.outcome == Retryable && s.tracker.failures >= 2 then
      Some("max_diagnostics_sync_retries_reached")
    else None
  }

  /** Which report the step makes: it is queued unless the tracker is disabled or the queue full. */
  function Reported(s: System, op: Op): Option<string> {
    if op.Marks? && op.index < |s.markers| then Some(s.markers[op.index]) else None
  }

  function Clears(start: Tracker, ops: seq<Op>, name: string): nat {
    if ops == [] then 0
    else
      var front := ops[..|ops| - 1];
      Clears(start, front, name) + if Cleared(Run(start, front), ops[|ops| - 1]) == Some(name) then 1 else 0
  }

  function Reports(start: Tracker, ops: seq<Op>, name: string): nat {
    if ops == [] then 0
    else
      var front := ops[..|ops| - 1];
      Reports(start, front, name) + if Reported(Run(start, front), ops[|ops| - 1]) == Some(name) then 1 else 0
  }

  /** How many reports of this name are still to come. */
  function Due(s: System, name: string): nat {
    multiset(s.markers)[name] + if name == "max_diagnostics_sync_retries_reached" then s.resets else 0
  }

  lemma OwesOneMore(s: System, owed: bool, marker: string, name: string)
    ensures Due(Owe(s, owed, marker), name) == Due(s, name) + if owed && marker == name then 1 else 0
  {
  }

  lemma OwesOneLess(s: System, k: nat, name: string)
    requires k < |s.markers|
    ensures Due(s.(markers := s.markers[..k] + s.markers[k + 1..]), name) + (if s.markers[k] == name then 1 else 0) == Due(s, name)
  {
    assert s.markers == s.markers[..k] + [s.markers[k]] + s.markers[k + 1..];
  }

  lemma OffersOwe(s: System, named: string, properties: Properties, at: int, name: string)
    ensures
      Due(OfferTo(s, named, properties, at), name) ==
      Due(s, name) + if s.tracker.enabled && |s.tracker.entries| >= 2000 && name == "max_events_stored_limit_reached" then 1 else 0
  {
    var (offered, full) := Offer(s.tracker, named, properties, at);
    OwesOneMore(s.(tracker := offered), full, STORED_LIMIT_REACHED, name);
  }

  lemma EndsOwe(s: System, o: PostOutcome, name: string)
    requires s.batch.Some?
    ensures Due(EndWith(s, s.batch.value, o), name) == Due(s, name) + if Cleared(s, Ends(o)) == Some(name) then 1 else 0
  {
    if o == Fatal {
      OwesOneMore(s.(batch := None, tracker := ReleaseFatal(s.tracker)), true, CLEARING_AFTER_FAILURE, name);
    }
  }

  lemma MarksOwe(s: System, k: nat, at: int, name: string)
    requires k < |s.markers|
    ensures
      Due(Next(s, Marks(k, at)), name) + (if s.markers[k] == name then 1 else 0) ==
      Due(s, name) + if Cleared(s, Marks(k, at)) == Some(name) then 1 else 0
  {
    OwesOneLess(s, k, name);
    OffersOwe(s.(markers := s.markers[..k] + s.markers[k + 1..]), s.markers[k], map[], at, name);
  }

  lemma ResetsOwe(s: System, name: string)
    ensures Due(Next(s, Resets), name) == Due(s, name)
  {
    if s.resets > 0 {
      OwesOneMore(s.(tracker := ResetFailures(s.tracker), resets := s.resets - 1), true, SYNC_RETRIES_REACHED, name);
    }
  }

  lemma OwesWhatItClears(s: System, op: Op, name: string)
    ensures
      Due(Next(s, op), name) + (if Reported(s, op) == Some(name) then 1 else 0) ==
      Due(s, name) + if Cleared(s, op) == Some(name) then 1 else 0
  {
    match op
    case Tracks(named, properties, at) => OffersOwe(s, named, properties, at, name);
    case Takes =>
    case Ends(o) => if s.batch.Some? { EndsOwe(s, o, name); }
    case Resets => ResetsOwe(s, name);
    case Marks(k, at) => if k < |s.markers| { MarksOwe(s, k, at, name); }
  }

  /** However the calls interleave, every clear is reported once: by now, or by a reset or a marker still due. */
  lemma {:induction false} EveryClearIsReported(enabled: bool, session: string, ops: seq<Op>, name: string)
    ensures
      Clears(Start(enabled, session), ops, name) ==
      Reports(Start(enabled, session), ops, name) + Due(Run(Start(enabled, session), ops), name)
  {
    if ops != [] {
      var front := ops[..|ops| - 1];
      EveryClearIsReported(enabled, session, front, name);
      OwesWhatItClears(Run(Start(enabled, session), front), ops[|ops| - 1], name);
    }
  }

  /** A report joins the queue as a marker made at that time, or, if the queue is full, clears it and is due again as a full queue. */
  lemma ReportIsQueued(s: System, op: Op)
    requires s.tracker.enabled && Reported(s, op).Some?
    ensures
      var after := Next(s, op);
      if |s.tracker.entries| >= 2000 then
        after.tracker.entries == [] && after.markers != [] && after.markers[|after.markers| - 1] == "max_events_stored_limit_reached"
      else
        && |after.tracker.entries| == |s.tracker.entries| + 1 && s.tracker.entries <= after.tracker.entries
        && Describes(after.tracker.entries[|s.tracker.entries|], s.tracker, Reported(s, op).value, map[], op.at)
  {
  }
}
