/**
 * The guest binding's native-sync scheduler: module-level flags, one run in flight, one
 * retry timer and a count of explicit purchases. A step is what the event loop executes
 * between two awaits.
 */
module GuestSchedulerModel {

  const NATIVE_SYNC_ATTEMPTS: nat := 3
  const NATIVE_RETRY_DELAY_MS: nat := 15_000
  const MAX_NATIVE_SYNC_RETRY_DELAY_MS: nat := 15 * 60_000

  /**
   * Where `nativeSyncInFlight` stands: absent, at an attempt of a sync, reporting a failure,
   * or settled with its `finally` callback still to run.
   */
  datatype Phase = Idle | Running(full: bool, attempt: nat) | Emitting | Finalizing

  /**
   * `fullRequests`, `fullServed` and `covers` are history: how many full syncs were asked
   * for, how many of those a later full sync has served, and how many had been asked for
   * when the run in flight began its current sync.
   */
  datatype Scheduler = Scheduler(
    phase: Phase,
    syncRequested: bool,
    fullSyncRequested: bool,
    recoveryRequired: bool,
    explicitPurchases: nat,
    timer: bool,
    retryIncludesAll: bool,
    retryDelayMs: nat,
    fullRequests: nat,
    fullServed: nat,
    covers: nat)

  const START := Scheduler(Idle, false, false, false, 0, false, false, NATIVE_RETRY_DELAY_MS, 0, 0, 0)

  /** The head of the `while` loop: take the queued request, or leave. */
  function Loop(s: Scheduler): Scheduler {
    if s.syncRequested then
      s.(phase := Running(s.fullSyncRequested, 0), covers := s.fullRequests,
         syncRequested := false, fullSyncRequested := false)
    else s.(phase := Finalizing)
  }

  function Request(s: Scheduler, all: bool): Scheduler {
    var queued := s.(syncRequested := true, fullSyncRequested := s.fullSyncRequested || all);
    if !s.phase.Idle? || s.explicitPurchases > 0 then queued else Loop(queued)
  }

  function ScheduleRetry(s: Scheduler, all: bool): Scheduler {
    var noted := s.(retryIncludesAll := s.retryIncludesAll || all);
    if s.timer then noted
    else
      var doubled := s.retryDelayMs * 2;
      noted.(timer := true,
             retryDelayMs := if doubled < MAX_NATIVE_SYNC_RETRY_DELAY_MS then doubled else MAX_NATIVE_SYNC_RETRY_DELAY_MS)
  }

  function RecordSuccess(s: Scheduler, includedAll: bool): Scheduler {
    var stillNeedsFull := (s.fullSyncRequested || s.retryIncludesAll) && !includedAll;
    s.(timer := false, retryIncludesAll := false, retryDelayMs := NATIVE_RETRY_DELAY_MS,
       recoveryRequired := s.syncRequested || stillNeedsFull,
       syncRequested := s.syncRequested || stillNeedsFull,
       fullSyncRequested := s.fullSyncRequested || stillNeedsFull,
       fullServed := if includedAll then s.covers else s.fullServed)
  }

  datatype Op =
    | Configured(playStore: bool)   // also what configuring asks for again and again
    | StoreEvent                    // a transaction update, or the window coming back
    | AwaitsRecovery                // purchase, logIn and logOut begin with it
    | PurchaseBegins
    | PurchaseEnds(failed: bool)
    | TimerFires
    | AttemptEnds(succeeded: bool)
    | EmitEnds
    | Finalizes

  /** `catch` and `finally` of a purchase run without an await between them. */
  function EndPurchase(s: Scheduler, failed: bool): Scheduler {
    var caught := if failed then Request(s.(recoveryRequired := true), false) else s;
    var left := caught.(explicitPurchases := s.explicitPurchases - if s.explicitPurchases > 0 then 1 else 0);
    if left.explicitPurchases == 0 && left.syncRequested then Request(left, left.fullSyncRequested) else left
  }

  function Fire(s: Scheduler): Scheduler {
    Request(s.(timer := false, retryIncludesAll := false), s.retryIncludesAll)
  }

  function EndAttempt(s: Scheduler, succeeded: bool): Scheduler
    requires s.phase.Running?
  {
    if succeeded then Loop(RecordSuccess(s, s.phase.full))
    else if s.phase.attempt + 1 < NATIVE_SYNC_ATTEMPTS then s.(phase := Running(s.phase.full, s.phase.attempt + 1))
    else
      ScheduleRetry(s, s.phase.full || s.fullSyncRequested).
        (syncRequested := false, fullSyncRequested := false, phase := Emitting)
  }

  function Finalize(s: Scheduler): Scheduler {
    var idle := s.(phase := Idle);
    if s.syncRequested then Request(idle, s.fullSyncRequested) else idle
  }

  /** An operation that cannot happen in a state leaves it alone. */
  function Next(s: Scheduler, op: Op): Scheduler {
    match op
    case Configured(playStore) =>
      Request(s.(recoveryRequired := true, fullRequests := s.fullRequests + if playStore then 1 else 0), playStore)
    case StoreEvent => Request(s.(recoveryRequired := true), false)
    case AwaitsRecovery => if s.recoveryRequired && s.phase.Idle? then Request(s, false) else s
    case PurchaseBegins => s.(explicitPurchases := s.explicitPurchases + 1)
    case PurchaseEnds(failed) => if s.explicitPurchases > 0 then EndPurchase(s, failed) else s
    case TimerFires => if s.timer then Fire(s) else s
    case AttemptEnds(succeeded) => if s.phase.Running? then EndAttempt(s, succeeded) else s
    case EmitEnds => if s.phase.Emitting? then s.(phase := Finalizing) else s
    case Finalizes => if s.phase.Finalizing? then Finalize(s) else s
  }

  function Run(s: Scheduler, ops: seq<Op>): Scheduler {
    if ops == [] then s else Next(Run(s, ops[..|ops| - 1]), ops[|ops| - 1])
  }
}

/** The scheduler's promises, at every await boundary of every run. */
module GuestSchedulerTheorems {
  import opened GuestSchedulerModel

  /** Something will still work on a required recovery. */
  predicate HasDriver(s: Scheduler) {
    !s.phase.Idle? || s.timer || (s.syncRequested && s.explicitPurchases > 0)
  }

  /** Where a full sync that is owed is written down. */
  predicate FullSyncRecorded(s: Scheduler) {
    || s.fullSyncRequested
    || (s.retryIncludesAll && s.timer)
    || (s.phase.Running? && s.phase.full)
  }

  /** The flags among themselves. */
  predicate FlagsOk(s: Scheduler) {
    && (s.fullSyncRequested ==> s.syncRequested)
    && (s.retryIncludesAll ==> s.timer)
    && s.fullServed <= s.fullRequests
    && (s.phase.Running? ==> s.covers <= s.fullRequests)
    && (s.phase.Running? ==> s.phase.attempt < NATIVE_SYNC_ATTEMPTS)
    && NATIVE_RETRY_DELAY_MS <= s.retryDelayMs <= MAX_NATIVE_SYNC_RETRY_DELAY_MS
  }

  predicate Inv(s: Scheduler) {
    && FlagsOk(s)
    && (s.recoveryRequired && !s.phase.Running? ==> s.timer || s.syncRequested)
    && (s.syncRequested && s.phase.Idle? ==> s.explicitPurchases > 0)
    && (s.fullServed < s.fullRequests ==> FullSyncRecorded(s))
    && (s.phase.Running? && s.phase.full && s.covers < s.fullRequests ==> s.fullSyncRequested)
  }

  /** Asking for a sync restores everything that marking a recovery or taking the timer leaves open. */
  lemma RequestKeeps(s: Scheduler, all: bool)
    requires FlagsOk(s)
    requires s.fullServed < s.fullRequests ==> all || FullSyncRecorded(s)
    requires s.phase.Running? && s.phase.full && s.covers < s.fullRequests ==> all || s.fullSyncRequested
    ensures Inv(Request(s, all))
  {
  }

  lemma EndPurchaseKeeps(s: Scheduler, failed: bool)
    requires Inv(s) && s.explicitPurchases > 0
    ensures Inv(EndPurchase(s, failed))
  {
    if failed { RequestKeeps(s.(recoveryRequired := true), false); }
    var caught := if failed then Request(s.(recoveryRequired := true), false) else s;
    var left := caught.(explicitPurchases := s.explicitPurchases - 1);
    if left.explicitPurchases == 0 && left.syncRequested { RequestKeeps(left, left.fullSyncRequested); }
  }

  lemma EndAttemptKeeps(s: Scheduler, succeeded: bool)
    requires Inv(s) && s.phase.Running?
    ensures Inv(EndAttempt(s, succeeded))
  {
  }

  lemma {:induction false} InvAlong(s: Scheduler, ops: seq<Op>)
    requires Inv(s)
    ensures Inv(Run(s, ops))
  {
    if ops != [] {
      InvAlong(s, ops[..|ops| - 1]);
      StepKeeps(Run(s, ops[..|ops| - 1]), ops[|ops| - 1]);
    }
  }

  lemma ConfiguredKeeps(s: Scheduler, playStore: bool)
    requires Inv(s)
    ensures Inv(Next(s, Configured(playStore)))
  {
    RequestKeeps(s.(recoveryRequired := true, fullRequests := s.fullRequests + if playStore then 1 else 0), playStore);
  }

  lemma EventKeeps(s: Scheduler)
    requires Inv(s)
    ensures Inv(Next(s, StoreEvent)) && Inv(Next(s, AwaitsRecovery)) && Inv(Next(s, PurchaseBegins))
  {
    RequestKeeps(s.(recoveryRequired := true), false);
    RequestKeeps(s, false);
  }

  lemma RunKeeps(s: Scheduler, op: Op)
    requires Inv(s) && (op.TimerFires? || op.AttemptEnds? || op.EmitEnds? || op.Finalizes?)
    ensures Inv(Next(s, op))
  {
    match op
    case TimerFires => if s.timer { RequestKeeps(s.(timer := false, retryIncludesAll := false), s.retryIncludesAll); }
    case AttemptEnds(succeeded) => if s.phase.Running? { EndAttemptKeeps(s, succeeded); }
    case Finalizes => if s.phase.Finalizing? { RequestKeeps(s.(phase := Idle), s.fullSyncRequested); }
    case _ =>
  }

  lemma StepKeeps(s: Scheduler, op: Op)
    requires Inv(s)
    ensures Inv(Next(s, op))
  {
    match op
    case Configured(playStore) => ConfiguredKeeps(s, playStore);
    case PurchaseEnds(failed) => if s.explicitPurchases > 0 { EndPurchaseKeeps(s, failed); }
    case TimerFires => RunKeeps(s, op);
    case AttemptEnds(_) => RunKeeps(s, op);
    case EmitEnds => RunKeeps(s, op);
    case Finalizes => RunKeeps(s, op);
    case _ => EventKeeps(s);
  }

  /** A required recovery is never left without a driver. */
  lemma RecoveryHasDriver(ops: seq<Op>)
    requires Run(START, ops).recoveryRequired
    ensures HasDriver(Run(START, ops))
  {
    InvAlong(START, ops);
  }

  /**
   * A requested full sync stays recorded: in the flag, in the timer, or as the full sync in
   * flight, until a full sync that began after the request succeeds.
   */
  lemma FullSyncStaysRecorded(ops: seq<Op>)
    requires Run(START, ops).fullServed < Run(START, ops).fullRequests
    ensures FullSyncRecorded(Run(START, ops))
  {
    InvAlong(START, ops);
  }

  /** Requests are served by nothing else, and a full sync serves only what preceded its start. */
  lemma OnlyFullSyncsServe(s: Scheduler, op: Op)
    requires Inv(s) && Next(s, op).fullServed != s.fullServed
    ensures op == AttemptEnds(true) && s.phase.Running? && s.phase.full && Next(s, op).fullServed == s.covers
  {
  }

  /** `covers` is fixed when a sync begins, from the requests made by then. */
  lemma CoversFixedAtStart(s: Scheduler, op: Op)
    ensures
      var m := Next(s, op);
      m.covers != s.covers ==> m.covers == m.fullRequests && m.phase.Running? && m.phase.attempt == 0
  {
    if op.PurchaseEnds? && s.explicitPurchases > 0 {
      var caught := if op.failed then Request(s.(recoveryRequired := true), false) else s;
      assert caught.covers == s.covers && caught.phase == s.phase;
    }
  }

  /** At most one run is in flight, and it makes at most three attempts per sync. */
  lemma AttemptsAreBounded(ops: seq<Op>)
    ensures Run(START, ops).phase.Running? ==> Run(START, ops).phase.attempt < NATIVE_SYNC_ATTEMPTS
    ensures NATIVE_RETRY_DELAY_MS <= Run(START, ops).retryDelayMs <= MAX_NATIVE_SYNC_RETRY_DELAY_MS
  {
    InvAlong(START, ops);
  }

  // ---- Nothing is stuck ----------------------------------------------------------------

  predicate Settled(s: Scheduler) {
    s.phase.Idle? && s.explicitPurchases == 0 && !s.timer
  }

  /** What the environment does next when purchases end and syncs succeed. */
  function Drive(s: Scheduler): Op {
    match s.phase
    case Running(_, _) => AttemptEnds(true)
    case Emitting => EmitEnds
    case Finalizing => Finalizes
    case Idle => if s.explicitPurchases > 0 then PurchaseEnds(false) else TimerFires
  }

  function Distance(s: Scheduler): nat {
    (match s.phase case Running(_, _) => 3 case Emitting => 2 case Finalizing => 1 case Idle => 0)
    + (if s.timer then 8 else 0) + (if s.syncRequested then 4 else 0) + s.explicitPurchases
  }

  lemma DriveApproaches(s: Scheduler)
    requires Inv(s) && !Settled(s)
    ensures Distance(Next(s, Drive(s))) < Distance(s)
  {
  }

  /**
   * From every reachable state, once purchases end and syncs succeed, the scheduler comes to
   * rest within a bounded number of steps with no recovery required and every requested full
   * sync served.
   */
  lemma {:induction false} SettlesOnSuccess(s: Scheduler) returns (ops: seq<Op>)
    requires Inv(s)
    ensures |ops| <= Distance(s)
    ensures forall k :: 0 <= k < |ops| ==> ops[k] in {AttemptEnds(true), EmitEnds, Finalizes, PurchaseEnds(false), TimerFires}
    ensures
      var rest := Run(s, ops);
      Settled(rest) && !rest.recoveryRequired && rest.fullServed == rest.fullRequests == s.fullRequests
    decreases Distance(s)
  {
    if Settled(s) {
      ops := [];
    } else {
      DriveApproaches(s);
      StepKeeps(s, Drive(s));
      var more := SettlesOnSuccess(Next(s, Drive(s)));
      RunAfter(s, Drive(s), more);
      ops := [Drive(s)] + more;
    }
  }

  lemma {:induction false} RunAfter(s: Scheduler, op: Op, more: seq<Op>)
    ensures Run(s, [op] + more) == Run(Next(s, op), more)
  {
    var all := [op] + more;
    if more == [] {
      assert all[..|all| - 1] == [];
    } else {
      assert all[..|all| - 1] == [op] + more[..|more| - 1];
      RunAfter(s, op, more[..|more| - 1]);
    }
  }
}
