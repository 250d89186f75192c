/** The in-memory diagnostics queue and its flush loop. */
module DiagnosticsModel {
  import opened Options

  const MAX_EVENTS_PER_REQUEST: nat := 200
  const MAX_SYNC_RETRIES: nat := 3
  const MAX_STORED_ENTRIES: nat := 2000

  const ENTRY_VERSION: nat := 1

  const STORED_LIMIT_REACHED := "max_events_stored_limit_reached"
  const SYNC_RETRIES_REACHED := "max_diagnostics_sync_retries_reached"
  const CLEARING_AFTER_FAILURE := "clearing_diagnostics_after_failed_sync"

  /** Property values are JSON texts. */
  type Properties = map<string, string>

  /** Ids are unique; the model numbers entries in the order they are made. */
  datatype Entry = Entry(
    id: nat,
    version: nat,
    name: string,
    properties: Properties,
    appSessionId: string,
    timestamp: int)

  datatype Tracker = Tracker(
    enabled: bool,
    appSessionId: string,
    entries: seq<Entry>,
    failures: nat,
    syncing: bool,
    nextId: nat)

  function Start(enabled: bool, session: string): Tracker {
    Tracker(enabled, session, [], 0, false, 0)
  }

  function NewEntry(t: Tracker, name: string, properties: Properties, at: int): Entry {
    Entry(t.nextId, ENTRY_VERSION, name, properties, t.appSessionId, at)
  }

  function Push(t: Tracker, name: string, properties: Properties, at: int): Tracker {
    t.(entries := t.entries + [NewEntry(t, name, properties, at)], nextId := t.nextId + 1)
  }

  /** One turn with the lock: a full queue is dropped, with the new entry, and a marker is owed. */
  function Offer(t: Tracker, name: string, properties: Properties, at: int): (Tracker, bool) {
    if !t.enabled then (t, false)
    else if |t.entries| >= MAX_STORED_ENTRIES then (t.(entries := [], nextId := t.nextId + 1), true)
    else (Push(t, name, properties, at), false)
  }

  /** A whole call: the marker that is owed is made a little later. */
  function Track(t: Tracker, name: string, properties: Properties, at: int, later: int): Tracker {
    var (offered, full) := Offer(t, name, properties, at);
    if full then Offer(offered, STORED_LIMIT_REACHED, map[], later).0 else offered
  }

  function TakeBatch(t: Tracker): (Tracker, Option<seq<Entry>>) {
    if t.syncing || t.entries == [] then (t, None)
    else
      var count := if |t.entries| < MAX_EVENTS_PER_REQUEST then |t.entries| else MAX_EVENTS_PER_REQUEST;
      (t.(syncing := true, entries := t.entries[count..]), Some(t.entries[..count]))
  }

  function BatchSucceeded(t: Tracker): Tracker {
    t.(failures := 0, syncing := false)
  }

  /** Up to the release of `syncing`: the failure is counted, and the batch put back or everything cleared. */
  function ReleaseRetryable(t: Tracker, batch: seq<Entry>): (Tracker, bool) {
    var failures := t.failures + 1;
    var cleared := failures >= MAX_SYNC_RETRIES;
    (t.(entries := if cleared then [] else batch + t.entries, failures := failures, syncing := false), cleared)
  }

  function ResetFailures(t: Tracker): Tracker {
    t.(failures := 0)
  }

  function BatchFailedRetryable(t: Tracker, batch: seq<Entry>, at: int): Tracker {
    var (released, cleared) := ReleaseRetryable(t, batch);
    if cleared then Track(ResetFailures(released), SYNC_RETRIES_REACHED, map[], at, at) else released
  }

  function ReleaseFatal(t: Tracker): Tracker {
    t.(entries := [], failures := 0, syncing := false)
  }

  function BatchFailedFatal(t: Tracker, at: int): Tracker {
    Track(ReleaseFatal(t), CLEARING_AFTER_FAILURE, map[], at, at)
  }

  datatype PostOutcome = Accepted | Retryable | Fatal

  function EndBatch(t: Tracker, batch: seq<Entry>, o: PostOutcome, at: int): Tracker {
    match o
    case Accepted => BatchSucceeded(t)
    case Retryable => BatchFailedRetryable(t, batch, at)
    case Fatal => BatchFailedFatal(t, at)
  }

  /** `flush_diagnostics` with nothing tracked meanwhile: what it posts, from the `n`-th post on; `now(k)` is when post `k` ends. */
  function Flush(t: Tracker, outcome: nat -> PostOutcome, now: nat -> int, n: nat): (Tracker, seq<seq<Entry>>, bool)
    decreases |t.entries|
  {
    var (taken, batch) := TakeBatch(t);
    if batch.None? then (taken, [], true)
    else
      var after := EndBatch(taken, batch.value, outcome(n), now(n));
      if outcome(n) != Accepted then (after, [batch.value], false)
      else
        var (rest, posted, ok) := Flush(after, outcome, now, n + 1);
        (rest, [batch.value] + posted, ok)
  }

  // ---- Interleavings -------------------------------------------------------------------

  /**
   * `batch` is what a flush has taken and not ended; `acknowledged` is what was accepted.
   * Calls of different tasks interleave where they hold neither the queue's lock nor
   * `syncing`: `resets` counts flushes that have released `syncing` after a clear and not yet
   * reset the failures, and `markers` names the markers that are owed and not yet tracked.
   */
  datatype System = System(
    tracker: Tracker,
    batch: Option<seq<Entry>>,
    acknowledged: seq<Entry>,
    resets: nat,
    markers: seq<string>)

  datatype Op =
    | Tracks(name: string, properties: Properties, at: int)
    | Takes
    | Ends(outcome: PostOutcome)
    | Resets
    | Marks(index: nat, at: int)

  function Owe(s: System, owed: bool, marker: string): System {
    if owed then s.(markers := s.markers + [marker]) else s
  }

  function OfferTo(s: System, name: string, properties: Properties, at: int): System {
    var (offered, full) := Offer(s.tracker, name, properties, at);
    Owe(s.(tracker := offered), full, STORED_LIMIT_REACHED)
  }

  function EndWith(s: System, batch: seq<Entry>, outcome: PostOutcome): System {
    var ended := s.(batch := None);
    match outcome
    case Accepted => ended.(tracker := BatchSucceeded(s.tracker), acknowledged := s.acknowledged + batch)
    case Retryable =>
      var (released, cleared) := ReleaseRetryable(s.tracker, batch);
      ended.(tracker := released, resets := if cleared then s.resets + 1 else s.resets)
    case Fatal => Owe(ended.(tracker := ReleaseFatal(s.tracker)), true, CLEARING_AFTER_FAILURE)
  }

  function Next(s: System, op: Op): System {
    match op
    case Tracks(name, properties, at) => OfferTo(s, name, properties, at)
    case Takes =>
      var (taken, batch) := TakeBatch(s.tracker);
      if batch.None? then s.(tracker := taken) else s.(tracker := taken, batch := batch)
    case Ends(outcome) => if s.batch.None? then s else EndWith(s, s.batch.value, outcome)
    case Resets =>
      if s.resets == 0 then s
      else Owe(s.(tracker := ResetFailures(s.tracker), resets := s.resets - 1), true, SYNC_RETRIES_REACHED)
    case Marks(k, at) =>
      if k >= |s.markers| then s
      else OfferTo(s.(markers := s.markers[..k] + s.markers[k + 1..]), s.markers[k], map[], at)
  }

  function Run(start: Tracker, ops: seq<Op>): System {
    if ops == [] then System(start, None, [], 0, [])
    else Next(Run(start, ops[..|ops| - 1]), ops[|ops| - 1])
  }
}

module DiagnosticsTheorems {
  import opened Options
  import opened DiagnosticsModel

  predicate Ascending(s: seq<Entry>) {
    forall i, j :: 0 <= i < j < |s| ==> s[i].id < s[j].id
  }

  predicate Below(s: seq<Entry>, bound: nat) {
    forall i :: 0 <= i < |s| ==> s[i].id < bound
  }

  function InFlight(s: System): seq<Entry> {
    if s.batch.Some? then s.batch.value else []
  }

  /** Everything accepted, on its way, or queued, in that order. */
  function Pipeline(s: System): seq<Entry> {
    s.acknowledged + InFlight(s) + s.tracker.entries
  }

  predicate Inv(s: System) {
    && Ascending(Pipeline(s))
    && Below(Pipeline(s), s.tracker.nextId)
    && s.tracker.syncing == s.batch.Some?
    && (s.batch.Some? ==> 1 <= |s.batch.value| <= MAX_EVENTS_PER_REQUEST)
    && |s.tracker.entries| <= MAX_STORED_ENTRIES + (if s.batch.Some? then 0 else MAX_EVENTS_PER_REQUEST)
    && s.tracker.failures < MAX_SYNC_RETRIES + s.resets
    && (forall k :: 0 <= k < |s.markers| ==> IsMarker(s.markers[k]))
  }

  predicate IsMarker(name: string) {
    name in {STORED_LIMIT_REACHED, SYNC_RETRIES_REACHED, CLEARING_AFTER_FAILURE}
  }

  lemma PushKeeps(front: seq<Entry>, t: Tracker, name: string, properties: Properties, at: int)
    requires Ascending(front + t.entries) && Below(front + t.entries, t.nextId)
    ensures Ascending(front + Push(t, name, properties, at).entries) && Below(front + Push(t, name, properties, at).entries, Push(t, name, properties, at).nextId)
  {
    assert front + Push(t, name, properties, at).entries == (front + t.entries) + [NewEntry(t, name, properties, at)];
  }

  lemma OfferKeeps(front: seq<Entry>, t: Tracker, name: string, properties: Properties, at: int)
    requires Ascending(front + t.entries) && Below(front + t.entries, t.nextId)
    ensures
      var after := Offer(t, name, properties, at).0;
      && Ascending(front + after.entries) && Below(front + after.entries, after.nextId)
      && (|after.entries| <= MAX_STORED_ENTRIES || after == t)
      && after.syncing == t.syncing && after.failures == t.failures
  {
    if |t.entries| >= MAX_STORED_ENTRIES {
      DropKeeps(front, t.entries, t.nextId);
    } else {
      PushKeeps(front, t, name, properties, at);
    }
  }

  lemma DropKeeps(front: seq<Entry>, dropped: seq<Entry>, bound: nat)
    requires Ascending(front + dropped) && Below(front + dropped, bound)
    ensures Ascending(front) && Below(front, bound) && front + [] == front
  {
    assert forall i :: 0 <= i < |front| ==> front[i] == (front + dropped)[i];
  }

  /** Dropping the middle or the rest of an ascending sequence leaves it ascending. */
  lemma DropMiddleKeeps(front: seq<Entry>, dropped: seq<Entry>, back: seq<Entry>, bound: nat)
    requires Ascending(front + dropped + back) && Below(front + dropped + back, bound)
    ensures Ascending(front) && Below(front, bound)
  {
    assert front + dropped + back == front + (dropped + back);
    DropKeeps(front, dropped + back, bound);
  }

  lemma OfferToKeeps(s: System, name: string, properties: Properties, at: int)
    requires Inv(s)
    ensures Inv(OfferTo(s, name, properties, at))
  {
    OfferKeeps(s.acknowledged + InFlight(s), s.tracker, name, properties, at);
  }

  lemma TakesKeeps(s: System)
    requires Inv(s)
    ensures Inv(Next(s, Takes))
  {
    var m := Next(s, Takes);
    var (taken, batch) := TakeBatch(s.tracker);
    if batch.Some? {
      assert s.tracker.entries == batch.value + taken.entries;
      assert Pipeline(m) == Pipeline(s);
    }
  }

  lemma EndsKeeps(s: System, o: PostOutcome)
    requires Inv(s) && s.batch.Some?
    ensures Inv(Next(s, Ends(o)))
  {
    var m := Next(s, Ends(o));
    if o.Accepted? || (o.Retryable? && s.tracker.failures + 1 < MAX_SYNC_RETRIES) {
      assert Pipeline(m) == Pipeline(s);
    } else {
      DropMiddleKeeps(s.acknowledged, s.batch.value, s.tracker.entries, s.tracker.nextId);
      assert Pipeline(m) == s.acknowledged;
    }
  }

  lemma StepKeeps(s: System, op: Op)
    requires Inv(s)
    ensures Inv(Next(s, op))
  {
    match op
    case Tracks(name, properties, at) => OfferToKeeps(s, name, properties, at);
    case Takes => TakesKeeps(s);
    case Ends(o) => if s.batch.Some? { EndsKeeps(s, o); }
    case Resets =>
    case Marks(k, at) =>
      if k < |s.markers| { OfferToKeeps(s.(markers := s.markers[..k] + s.markers[k + 1..]), s.markers[k], map[], at); }
  }

  lemma {:induction false} InvAlong(enabled: bool, session: string, ops: seq<Op>)
    ensures Inv(Run(Start(enabled, session), ops))
  {
    if ops != [] {
      InvAlong(enabled, session, ops[..|ops| - 1]);
      StepKeeps(Run(Start(enabled, session), ops[..|ops| - 1]), ops[|ops| - 1]);
    }
  }

  /**
   * However tracking, posting and failures interleave, what was accepted, what is on its way
   * and what is queued follow the order of tracking, and no entry appears twice.
   */
  lemma NothingTwiceOrOutOfOrder(enabled: bool, session: string, ops: seq<Op>)
    ensures Ascending(Pipeline(Run(Start(enabled, session), ops)))
    ensures Below(Pipeline(Run(Start(enabled, session), ops)), Run(Start(enabled, session), ops).tracker.nextId)
  {
    InvAlong(enabled, session, ops);
  }

  /**
   * A batch is out exactly while a flush holds the flag, so at most one is; sizes stay bounded.
   * The failure count stays below three, plus one for every flush that has cleared the queue
   * and not yet reset it.
   */
  lemma OneBatchAndBoundedQueue(enabled: bool, session: string, ops: seq<Op>)
    ensures
      var s := Run(Start(enabled, session), ops);
      && s.tracker.syncing == s.batch.Some?
      && (s.batch.Some? ==> 1 <= |s.batch.value| <= MAX_EVENTS_PER_REQUEST && |s.tracker.entries| <= MAX_STORED_ENTRIES)
      && |s.tracker.entries| <= MAX_STORED_ENTRIES + MAX_EVENTS_PER_REQUEST
      && s.tracker.failures < MAX_SYNC_RETRIES + s.resets
  {
    InvAlong(enabled, session, ops);
  }

  /** Where an entry is dropped: a full queue, a fatal failure, or a failure that is counted third or later. */
  predicate Clears(s: System, op: Op) {
    || ((op.Tracks? || (op.Marks? && op.index < |s.markers|)) && |s.tracker.entries| >= MAX_STORED_ENTRIES)
    || (op.Ends? && s.batch.Some? && op.outcome == Retryable && s.tracker.failures + 1 >= MAX_SYNC_RETRIES)
    || (op.Ends? && s.batch.Some? && op.outcome == Fatal)
  }

  /**
   * An accepted entry stays accepted, and nothing is lost except by a clear. A retryable failure
   * clears on a count above three only while another flush's reset is outstanding.
   */
  lemma OnlyClearsLose(s: System, op: Op)
    requires Inv(s)
    ensures s.acknowledged <= Next(s, op).acknowledged
    ensures Pipeline(s) <= Pipeline(Next(s, op)) || Clears(s, op)
    ensures op.Ends? && op.outcome == Retryable && s.resets == 0 && Clears(s, op) ==> s.tracker.failures + 1 == MAX_SYNC_RETRIES
  {
    match op
    case Takes => {
      var (taken, batch) := TakeBatch(s.tracker);
      if batch.Some? {
        assert s.tracker.entries == batch.value + taken.entries;
        assert Pipeline(Next(s, op)) == Pipeline(s);
      }
    }
    case Tracks(name, properties, at) => if !Clears(s, op) { OfferAppends(s, name, properties, at); }
    case Marks(k, at) => if k < |s.markers| && !Clears(s, op) { OfferAppends(s.(markers := s.markers[..k] + s.markers[k + 1..]), s.markers[k], map[], at); }
    case Ends(o) => {
      if s.batch.Some? && (o.Accepted? || (o.Retryable? && s.tracker.failures + 1 < MAX_SYNC_RETRIES)) {
        assert Pipeline(Next(s, op)) == Pipeline(s);
      }
    }
    case Resets =>
  }

  lemma OfferAppends(s: System, name: string, properties: Properties, at: int)
    requires |s.tracker.entries| < MAX_STORED_ENTRIES
    ensures Pipeline(s) <= Pipeline(OfferTo(s, name, properties, at))
  {
    if s.tracker.enabled {
      assert Pipeline(OfferTo(s, name, properties, at)) == Pipeline(s) + [NewEntry(s.tracker, name, properties, at)];
    }
  }

  // One entry fails three times; before the failures are reset, a new one is tracked, taken and
  // fails once.

  function LateReset(name: string, late: string): seq<Op> {
    ThreeFailures(name) + [Tracks(late, map[], 1)] + [Takes] + [Ends(Retryable)]
  }

  function ThreeFailures(name: string): seq<Op> {
    [Tracks(name, map[], 0)] + [Takes] + [Ends(Retryable)] + [Takes] + [Ends(Retryable)] + [Takes] + [Ends(Retryable)]
  }

  lemma RunSnoc(start: Tracker, ops: seq<Op>, op: Op)
    ensures Run(start, ops + [op]) == Next(Run(start, ops), op)
  {
    assert (ops + [op])[..|ops|] == ops;
  }

  /** An entry can be cleared on its own first failure, counted fourth. */
  lemma LateResetClears(session: string, name: string, late: string)
    ensures
      var start := Start(true, session);
      var taken := Run(start, ThreeFailures(name) + [Tracks(late, map[], 1)] + [Takes]);
      && taken.batch.Some? && |taken.batch.value| == 1 && taken.batch.value[0].name == late
      && taken.tracker.failures == MAX_SYNC_RETRIES && taken.resets == 1
      && Pipeline(Run(start, LateReset(name, late))) == []
  {
    var start, ops := Start(true, session), ThreeFailures(name);
    ThreeFail(session, name);
    RunSnoc(start, ops, Tracks(late, map[], 1));
    RunSnoc(start, ops + [Tracks(late, map[], 1)], Takes);
    RunSnoc(start, ops + [Tracks(late, map[], 1)] + [Takes], Ends(Retryable));
  }

  /** A tracker with this one entry that has failed so often. */
  function Failing(session: string, name: string, failures: nat): System {
    var entry := Entry(0, ENTRY_VERSION, name, map[], session, 0);
    System(Tracker(true, session, [entry], failures, false, 1), None, [], 0, [])
  }

  lemma FailsOnce(session: string, name: string, failures: nat)
    ensures
      Next(Next(Failing(session, name, failures), Takes), Ends(Retryable)) ==
      if failures + 1 < MAX_SYNC_RETRIES then Failing(session, name, failures + 1)
      else System(Tracker(true, session, [], failures + 1, false, 1), None, [], 1, [])
  {
  }

  lemma ThreeFail(session: string, name: string)
    ensures Run(Start(true, session), ThreeFailures(name)) == System(Tracker(true, session, [], 3, false, 1), None, [], 1, [])
  {
    var start, one := Start(true, session), [Tracks(name, map[], 0)];
    RunSnoc(start, [], Tracks(name, map[], 0));
    assert [] + one == one;
    FailsAgain(start, one, session, name, 0);
    FailsAgain(start, one + [Takes] + [Ends(Retryable)], session, name, 1);
    FailsAgain(start, one + [Takes] + [Ends(Retryable)] + [Takes] + [Ends(Retryable)], session, name, 2);
  }

  lemma FailsAgain(start: Tracker, ops: seq<Op>, session: string, name: string, failures: nat)
    requires Run(start, ops) == Failing(session, name, failures)
    ensures
      Run(start, ops + [Takes] + [Ends(Retryable)]) ==
      if failures + 1 < MAX_SYNC_RETRIES then Failing(session, name, failures + 1)
      else System(Tracker(true, session, [], failures + 1, false, 1), None, [], 1, [])
  {
    RunSnoc(start, ops, Takes);
    RunSnoc(start, ops + [Takes], Ends(Retryable));
    FailsOnce(session, name, failures);
  }

  // ---- Entries as they were tracked ----------------------------------------------------

  /** One of the markers the tracker makes itself. */
  predicate Marker(e: Entry) {
    IsMarker(e.name) && e.properties == map[]
  }

  predicate TrackedBy(op: Op, e: Entry) {
    op.Tracks? && e.name == op.name && e.properties == op.properties && e.timestamp == op.at
  }

  /** The entry is one that the tracker of this session was given, as it was given, or a marker. */
  ghost predicate Genuine(session: string, ops: seq<Op>, e: Entry) {
    && e.version == ENTRY_VERSION && e.appSessionId == session
    && (Marker(e) || exists op :: op in ops && TrackedBy(op, e))
  }

  ghost predicate AllGenuine(session: string, ops: seq<Op>, entries: seq<Entry>) {
    forall e :: e in entries ==> Genuine(session, ops, e)
  }

  lemma GenuineLonger(session: string, ops: seq<Op>, op: Op, entries: seq<Entry>)
    requires AllGenuine(session, ops, entries)
    ensures AllGenuine(session, ops + [op], entries)
  {
    forall e | e in entries ensures Genuine(session, ops + [op], e) {
      if !Marker(e) {
        var tracks :| tracks in ops && TrackedBy(tracks, e);
        assert tracks in ops + [op];
      }
    }
  }

  /** Every entry of the next pipeline was there before, was just tracked, or is a marker. */
  lemma StepGenuine(s: System, op: Op, e: Entry)
    requires Inv(s) && e in Pipeline(Next(s, op)) && e !in Pipeline(s)
    ensures e.version == ENTRY_VERSION && e.appSessionId == s.tracker.appSessionId && s.tracker.enabled
    ensures Marker(e) || TrackedBy(op, e)
  {
    match op
    case Takes => TakesAddNothing(s, e);
    case Ends(o) => EndsAddNothing(s, o, e);
    case _ =>
  }

  lemma EndsAddNothing(s: System, o: PostOutcome, e: Entry)
    requires e in Pipeline(Next(s, Ends(o)))
    ensures e in Pipeline(s)
  {
  }

  lemma TakesAddNothing(s: System, e: Entry)
    requires e in Pipeline(Next(s, Takes))
    ensures e in Pipeline(s)
  {
    var (taken, batch) := TakeBatch(s.tracker);
    if batch.Some? { assert s.tracker.entries == batch.value + taken.entries; }
  }

  /**
   * Through every batch, requeue and clear, whatever is accepted, on its way or queued is an
   * entry exactly as it was tracked (name, properties, time, session), or a marker.
   */
  lemma {:induction false} EntriesAreUnaltered(enabled: bool, session: string, ops: seq<Op>)
    ensures AllGenuine(session, ops, Pipeline(Run(Start(enabled, session), ops)))
    ensures Run(Start(enabled, session), ops).tracker.appSessionId == session
  {
    if ops != [] {
      var front, op := ops[..|ops| - 1], ops[|ops| - 1];
      EntriesAreUnaltered(enabled, session, front);
      InvAlong(enabled, session, front);
      GenuineStep(session, front, Run(Start(enabled, session), front), op);
      assert ops == front + [op];
    }
  }

  lemma GenuineStep(session: string, front: seq<Op>, before: System, op: Op)
    requires Inv(before) && AllGenuine(session, front, Pipeline(before)) && before.tracker.appSessionId == session
    ensures AllGenuine(session, front + [op], Pipeline(Next(before, op)))
  {
    GenuineLonger(session, front, op, Pipeline(before));
    forall e | e in Pipeline(Next(before, op)) ensures Genuine(session, front + [op], e) {
      if e !in Pipeline(before) {
        StepGenuine(before, op, e);
        assert op in front + [op];
      }
    }
  }

  /** A disabled tracker records and sends nothing. */
  lemma {:induction false} DisabledRecordsNothing(session: string, ops: seq<Op>)
    ensures Run(Start(false, session), ops) == System(Start(false, session), None, [], 0, [])
  {
    if ops != [] { DisabledRecordsNothing(session, ops[..|ops| - 1]); }
  }

  // ---- A flush that succeeds -----------------------------------------------------------

  function Concat(batches: seq<seq<Entry>>): seq<Entry> {
    if batches == [] then [] else batches[0] + Concat(batches[1..])
  }

  /** Left alone, a flush posts the whole queue in order, in as few batches as fit. */
  lemma {:induction false} FlushPostsEverything(t: Tracker, outcome: nat -> PostOutcome, now: nat -> int, n: nat)
    requires !t.syncing && forall k :: outcome(k) == Accepted
    ensures
      var (after, posted, ok) := Flush(t, outcome, now, n);
      && ok && after.entries == [] && !after.syncing
      && Concat(posted) == t.entries
      && |posted| == (|t.entries| + MAX_EVENTS_PER_REQUEST - 1) / MAX_EVENTS_PER_REQUEST
      && (forall k :: 0 <= k < |posted| ==> 1 <= |posted[k]| <= MAX_EVENTS_PER_REQUEST)
    decreases |t.entries|
  {
    var (taken, batch) := TakeBatch(t);
    if batch.Some? {
      var after := BatchSucceeded(taken);
      FlushPostsEverything(after, outcome, now, n + 1);
      var posted := Flush(after, outcome, now, n + 1).1;
      assert ([batch.value] + posted)[1..] == posted;
      assert batch.value + after.entries == t.entries;
    }
  }

  /** A flush that stops at a failure has lost nothing if it was not the third in a row. */
  lemma {:induction false} FlushKeepsOnRetry(t: Tracker, outcome: nat -> PostOutcome, now: nat -> int, n: nat)
    requires !t.syncing && !Flush(t, outcome, now, n).2
    ensures
      var (after, posted, _) := Flush(t, outcome, now, n);
      && posted != []
      && (outcome(n + |posted| - 1) == Retryable && after.failures > 0 ==>
            Concat(posted[..|posted| - 1]) + after.entries == t.entries)
    decreases |t.entries|
  {
    var (taken, batch) := TakeBatch(t);
    assert batch.value + taken.entries == t.entries;
    var after := EndBatch(taken, batch.value, outcome(n), now(n));
    if outcome(n) == Accepted {
      FlushKeepsOnRetry(after, outcome, now, n + 1);
      ConcatFront(batch.value, Flush(after, outcome, now, n + 1).1);
    } else {
      assert [batch.value][..0] == [];
      EndKeeps(taken, batch.value, outcome(n), now(n));
    }
  }

  lemma EndKeeps(t: Tracker, batch: seq<Entry>, o: PostOutcome, at: int)
    ensures o == Retryable && EndBatch(t, batch, o, at).failures > 0 ==> EndBatch(t, batch, o, at).entries == batch + t.entries
  {
  }

  lemma ConcatFront(batch: seq<Entry>, posted: seq<seq<Entry>>)
    requires posted != []
    ensures var all := [batch] + posted; Concat(all[..|all| - 1]) == batch + Concat(posted[..|posted| - 1])
  {
    var all := [batch] + posted;
    assert all[..|all| - 1] == [batch] + posted[..|posted| - 1];
    assert ([batch] + posted[..|posted| - 1])[1..] == posted[..|posted| - 1];
  }
}
