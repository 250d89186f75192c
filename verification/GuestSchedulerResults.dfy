/** What the scheduler does with a demand, a failure and a purchase, over whole runs. */
module GuestSchedulerResults {
  import opened GuestSchedulerModel
  import opened GuestSchedulerTheorems

  // ---- A demand is held until it is served ---------------------------------------------

  /** The state before operation `n`. */
  function At(ops: seq<Op>, n: nat): Scheduler
    requires n <= |ops|
  {
    Run(START, ops[..n])
  }

  lemma StepAt(ops: seq<Op>, n: nat)
    requires n < |ops|
    ensures At(ops, n + 1) == Next(At(ops, n), ops[n])
  {
    assert ops[..n + 1][..n] == ops[..n];
  }

  /** A transaction update, a configuration, or a purchase that failed. */
  predicate Demands(s: Scheduler, op: Op) {
    op.StoreEvent? || op.Configured? || (op == PurchaseEnds(true) && s.explicitPurchases > 0)
  }

  /** A sync begins: its first attempt is on its way. */
  predicate Begins(s: Scheduler, op: Op, after: Scheduler) {
    after.phase.Running? && after.phase.attempt == 0 && (!s.phase.Running? || op == AttemptEnds(true))
  }

  predicate Succeeds(s: Scheduler, op: Op) {
    s.phase.Running? && op == AttemptEnds(true)
  }

  predicate BeginsAt(ops: seq<Op>, j: nat)
    requires j < |ops|
  {
    Begins(At(ops, j), ops[j], At(ops, j + 1))
  }

  /** The sync that is running before operation `n` began at `j`. */
  ghost predicate Current(ops: seq<Op>, j: nat, n: nat) {
    j < n <= |ops| && BeginsAt(ops, j) && forall i :: j < i < n ==> !BeginsAt(ops, i)
  }

  /** A sync that began at `k` or later has succeeded before `n`. */
  ghost predicate Served(ops: seq<Op>, k: nat, n: nat) {
    exists j: nat, m: nat :: k <= j && m < n <= |ops| && Current(ops, j, m) && Succeeds(At(ops, m), ops[m])
  }

  /** Recovery is required; a running sync began after the demand, or another is queued behind it. */
  ghost predicate StillOwed(ops: seq<Op>, k: nat, n: nat)
    requires n <= |ops|
  {
    && At(ops, n).recoveryRequired
    && (At(ops, n).phase.Running? ==> At(ops, n).syncRequested || exists j: nat :: k <= j && Current(ops, j, n))
  }

  lemma DemandNoted(s: Scheduler, op: Op)
    requires Demands(s, op)
    ensures var m := Next(s, op); m.recoveryRequired && (m.phase.Running? ==> m.syncRequested || Begins(s, op, m))
  {
  }

  lemma OwedStep(s: Scheduler, op: Op)
    requires s.recoveryRequired
    ensures
      var m := Next(s, op);
      && (!Succeeds(s, op) ==> m.recoveryRequired && (s.phase.Running? && m.phase.Running? ==> !Begins(s, op, m) && (s.syncRequested ==> m.syncRequested)))
      && (Succeeds(s, op) && s.syncRequested ==> m.recoveryRequired && Begins(s, op, m))
      && (!s.phase.Running? && m.phase.Running? ==> Begins(s, op, m))
  {
  }

  lemma CurrentLater(ops: seq<Op>, j: nat, n: nat)
    requires n < |ops| && Current(ops, j, n) && !BeginsAt(ops, n)
    ensures Current(ops, j, n + 1)
  {
  }

  lemma OwedOneMore(ops: seq<Op>, k: nat, n: nat)
    requires k < n < |ops| && StillOwed(ops, k, n)
    ensures Served(ops, k, n + 1) || StillOwed(ops, k, n + 1)
  {
    var s, m := At(ops, n), At(ops, n + 1);
    StepAt(ops, n);
    OwedStep(s, ops[n]);
    if m.phase.Running? && BeginsAt(ops, n) { assert Current(ops, n, n + 1); }
    if s.phase.Running? && !s.syncRequested {
      var j: nat :| k <= j && Current(ops, j, n);
      if Succeeds(s, ops[n]) {
        assert Served(ops, k, n + 1);
      } else if m.phase.Running? {
        CurrentLater(ops, j, n);
      }
    }
  }

  /**
   * Main result. After a transaction update, a configuration or a failed purchase, recovery
   * stays required, in every run, until a sync that began after that has succeeded.
   */
  lemma {:induction false} DemandHeldUntilServed(ops: seq<Op>, k: nat, n: nat)
    requires k < n <= |ops| && Demands(At(ops, k), ops[k])
    ensures At(ops, n).recoveryRequired || Served(ops, k, n)
    ensures Served(ops, k, n) || StillOwed(ops, k, n)
  {
    if n == k + 1 {
      StepAt(ops, k);
      DemandNoted(At(ops, k), ops[k]);
      if BeginsAt(ops, k) { assert Current(ops, k, k + 1); }
    } else {
      DemandHeldUntilServed(ops, k, n - 1);
      if Served(ops, k, n - 1) {
        var j: nat, m: nat :| k <= j && m < n - 1 <= |ops| && Current(ops, j, m) && Succeeds(At(ops, m), ops[m]);
      } else {
        OwedOneMore(ops, k, n - 1);
      }
    }
  }

  /** In every reachable state at rest with no purchase open, the demand begins its sync at once. */
  lemma DemandBeginsAtOnce(ops: seq<Op>, op: Op)
    requires var s := Run(START, ops); s.phase.Idle? && s.explicitPurchases == (if op.PurchaseEnds? then 1 else 0) && Demands(s, op)
    ensures
      var s, m := Run(START, ops), Next(Run(START, ops), op);
      && Begins(s, op, m) && m.recoveryRequired && !m.syncRequested
      && (!s.syncRequested ==> (m.phase.full <==> op == Configured(true)))
  {
    InvAlong(START, ops);
  }

  /** Waiting for recovery starts a sync exactly when one is required, none runs and no purchase is open. */
  lemma AwaitingStartsOne(ops: seq<Op>)
    ensures
      var s, m := Run(START, ops), Next(Run(START, ops), AwaitsRecovery);
      && (Begins(s, AwaitsRecovery, m) <==> s.recoveryRequired && s.phase.Idle? && s.explicitPurchases == 0)
      && (!s.recoveryRequired || !s.phase.Idle? ==> m == s)
      && (s.recoveryRequired && s.phase.Idle? ==> m.recoveryRequired && (m.phase.Running? || m.syncRequested))
  {
    InvAlong(START, ops);
  }

  // ---- Full syncs only on request ------------------------------------------------------

  predicate NothingFull(s: Scheduler) {
    && !s.fullSyncRequested && !s.retryIncludesAll && !(s.phase.Running? && s.phase.full)
    && s.fullRequests == 0
  }

  lemma NothingFullStep(s: Scheduler, op: Op)
    requires NothingFull(s) && op != Configured(true)
    ensures NothingFull(Next(s, op))
  {
  }

  /** Until a Play configuration asks for one, no sync is full: updates, retries and purchases ask for pending ones. */
  lemma {:induction false} NoFullSyncUnasked(ops: seq<Op>)
    requires Configured(true) !in ops
    ensures NothingFull(Run(START, ops))
  {
    if ops != [] {
      NoFullSyncUnasked(ops[..|ops| - 1]);
      NothingFullStep(Run(START, ops[..|ops| - 1]), ops[|ops| - 1]);
    }
  }

  /** A sync is full exactly if a full one was asked for since the queue was last taken. */
  lemma QueueDecidesKind(s: Scheduler, op: Op)
    requires Inv(s) && Begins(s, op, Next(s, op))
    ensures
      var asked := || s.fullSyncRequested || op == Configured(true)
                   || (op.TimerFires? && s.retryIncludesAll)
                   || (op.AttemptEnds? && s.retryIncludesAll && !s.phase.full);
      Next(s, op).phase.full <==> asked
  {
  }

  /** How many full syncs were asked for. */
  function Asked(ops: seq<Op>): nat {
    if ops == [] then 0 else Asked(ops[..|ops| - 1]) + if ops[|ops| - 1] == Configured(true) then 1 else 0
  }

  lemma RequestIsNotCounted(s: Scheduler, all: bool)
    ensures Request(s, all).fullRequests == s.fullRequests && Request(s, all).fullServed == s.fullServed
  {
  }

  lemma EndPurchaseIsNotCounted(s: Scheduler, failed: bool)
    ensures EndPurchase(s, failed).fullRequests == s.fullRequests && EndPurchase(s, failed).fullServed == s.fullServed
  {
    var caught := if failed then Request(s.(recoveryRequired := true), false) else s;
    RequestIsNotCounted(s.(recoveryRequired := true), false);
    var left := caught.(explicitPurchases := s.explicitPurchases - if s.explicitPurchases > 0 then 1 else 0);
    RequestIsNotCounted(left, left.fullSyncRequested);
  }

  lemma EndAttemptIsNotCounted(s: Scheduler, succeeded: bool)
    requires s.phase.Running?
    ensures EndAttempt(s, succeeded).fullRequests == s.fullRequests
  {
  }

  lemma RequestsStep(s: Scheduler, op: Op)
    ensures Next(s, op).fullRequests == s.fullRequests + if op == Configured(true) then 1 else 0
  {
    match op
    case Configured(playStore) =>
      RequestIsNotCounted(s.(recoveryRequired := true, fullRequests := s.fullRequests + if playStore then 1 else 0), playStore);
    case StoreEvent => RequestIsNotCounted(s.(recoveryRequired := true), false);
    case AwaitsRecovery => RequestIsNotCounted(s, false);
    case PurchaseEnds(failed) => EndPurchaseIsNotCounted(s, failed);
    case TimerFires => RequestIsNotCounted(s.(timer := false, retryIncludesAll := false), s.retryIncludesAll);
    case AttemptEnds(succeeded) => if s.phase.Running? { EndAttemptIsNotCounted(s, succeeded); }
    case Finalizes => RequestIsNotCounted(s.(phase := Idle), s.fullSyncRequested);
    case _ =>
  }

  lemma CoversStep(s: Scheduler, op: Op)
    ensures
      var m := Next(s, op);
      && (Begins(s, op, m) ==> m.covers == m.fullRequests)
      && (s.phase.Running? && m.phase.Running? && !Begins(s, op, m) ==> m.covers == s.covers && m.phase.full == s.phase.full)
      && (!s.phase.Running? && m.phase.Running? ==> Begins(s, op, m))
  {
  }

  lemma ServedStep(s: Scheduler, op: Op)
    ensures Next(s, op).fullServed == if Succeeds(s, op) && s.phase.full then s.covers else s.fullServed
  {
    match op
    case Configured(playStore) =>
      RequestIsNotCounted(s.(recoveryRequired := true, fullRequests := s.fullRequests + if playStore then 1 else 0), playStore);
    case StoreEvent => RequestIsNotCounted(s.(recoveryRequired := true), false);
    case AwaitsRecovery => RequestIsNotCounted(s, false);
    case PurchaseEnds(failed) => EndPurchaseIsNotCounted(s, failed);
    case TimerFires => RequestIsNotCounted(s.(timer := false, retryIncludesAll := false), s.retryIncludesAll);
    case Finalizes => RequestIsNotCounted(s.(phase := Idle), s.fullSyncRequested);
    case _ =>
  }

  lemma {:induction false} AskedAreCounted(ops: seq<Op>, n: nat)
    requires n <= |ops|
    ensures At(ops, n).fullRequests == Asked(ops[..n])
  {
    if n > 0 {
      AskedAreCounted(ops, n - 1);
      AskedOneMore(ops, n - 1, At(ops, n - 1), At(ops, n));
    }
  }

  lemma AskedOneMore(ops: seq<Op>, n: nat, s: Scheduler, m: Scheduler)
    requires n < |ops| && s == At(ops, n) && m == At(ops, n + 1)
    ensures m.fullRequests - s.fullRequests == Asked(ops[..n + 1]) - Asked(ops[..n])
  {
    RequestsStep(s, ops[n]);
    StepAt(ops, n);
    assert ops[..n + 1][..n] == ops[..n];
  }

  lemma {:induction false} AskedGrows(ops: seq<Op>, k: nat, n: nat)
    requires k <= n <= |ops|
    ensures Asked(ops[..k]) <= Asked(ops[..n])
  {
    if k < n {
      AskedGrows(ops, k, n - 1);
      assert ops[..n][..n - 1] == ops[..n - 1];
    }
  }

  /** The sync that is running began after it had covered what was asked by then. */
  ghost predicate CoversAt(ops: seq<Op>, j: nat, n: nat)
    requires n <= |ops|
  {
    Current(ops, j, n) && At(ops, n).covers == Asked(ops[..j + 1])
  }

  lemma {:induction false} RunningCovers(ops: seq<Op>, n: nat)
    requires n <= |ops| && At(ops, n).phase.Running?
    ensures exists j: nat :: CoversAt(ops, j, n)
  {
    if n > 0 {
      StepAt(ops, n - 1);
      CoversStep(At(ops, n - 1), ops[n - 1]);
      if BeginsAt(ops, n - 1) {
        AskedAreCounted(ops, n);
        assert CoversAt(ops, n - 1, n);
      } else {
        RunningCovers(ops, n - 1);
        var j: nat :| CoversAt(ops, j, n - 1);
        CurrentLater(ops, j, n - 1);
        assert CoversAt(ops, j, n);
      }
    }
  }

  /** The full sync that began at `j` succeeded as operation `m`. */
  ghost predicate FullSyncSucceeded(ops: seq<Op>, j: nat, m: nat) {
    m < |ops| && Current(ops, j, m) && Succeeds(At(ops, m), ops[m]) && At(ops, m).phase.full
  }

  /** So many requests were made before some full sync began that has succeeded by now. */
  ghost predicate Covered(ops: seq<Op>, n: nat, served: nat) {
    served == 0 || exists j: nat, m: nat :: m < n && FullSyncSucceeded(ops, j, m) && served == Asked(ops[..j + 1])
  }

  lemma CoveredLater(ops: seq<Op>, n: nat, served: nat)
    requires Covered(ops, n, served)
    ensures Covered(ops, n + 1, served)
  {
    if served != 0 {
      var j: nat, m: nat :| m < n && FullSyncSucceeded(ops, j, m) && served == Asked(ops[..j + 1]);
      assert m < n + 1;
    }
  }

  lemma SuccessCovers(ops: seq<Op>, n: nat)
    requires n < |ops| && Succeeds(At(ops, n), ops[n]) && At(ops, n).phase.full
    ensures Covered(ops, n + 1, At(ops, n).covers)
  {
    RunningCovers(ops, n);
    var j: nat :| CoversAt(ops, j, n);
    assert FullSyncSucceeded(ops, j, n);
  }

  /** What counts as served was asked before the latest full sync that succeeded. */
  lemma {:induction false} ServedIsCovered(ops: seq<Op>, n: nat)
    requires n <= |ops|
    ensures Covered(ops, n, At(ops, n).fullServed)
  {
    if n > 0 {
      ServedIsCovered(ops, n - 1);
      CoveredOneMore(ops, n - 1, At(ops, n - 1), At(ops, n));
    }
  }

  lemma CoveredOneMore(ops: seq<Op>, n: nat, s: Scheduler, m: Scheduler)
    requires n < |ops| && s == At(ops, n) && m == At(ops, n + 1) && Covered(ops, n, s.fullServed)
    ensures Covered(ops, n + 1, m.fullServed)
  {
    StepAt(ops, n);
    ServedStep(s, ops[n]);
    if Succeeds(s, ops[n]) && s.phase.full { SuccessCovers(ops, n); } else { CoveredLater(ops, n, s.fullServed); }
  }

  /** After a Play configuration a full sync stays recorded, in every run, until a full one that began after that succeeds. */
  lemma FullDemandHeldUntilServed(ops: seq<Op>, k: nat, n: nat)
    requires k < n <= |ops| && ops[k] == Configured(true)
    ensures FullSyncRecorded(At(ops, n)) || exists j: nat, m: nat :: k <= j && m < n && FullSyncSucceeded(ops, j, m)
  {
    if !FullSyncRecorded(At(ops, n)) {
      NothingRecorded(ops, n);
      AskedMore(ops, k, n);
      var j: nat, m: nat :| m < n && FullSyncSucceeded(ops, j, m) && Asked(ops[..n]) == Asked(ops[..j + 1]);
      if j < k { AskedGrows(ops, j + 1, k); }
    }
  }

  /** When no full sync is recorded, all that were asked for are covered. */
  lemma NothingRecorded(ops: seq<Op>, n: nat)
    requires n <= |ops| && !FullSyncRecorded(At(ops, n))
    ensures Covered(ops, n, Asked(ops[..n]))
  {
    InvAlong(START, ops[..n]);
    AskedAreCounted(ops, n);
    ServedIsCovered(ops, n);
  }

  lemma AskedMore(ops: seq<Op>, k: nat, n: nat)
    requires k < n <= |ops| && ops[k] == Configured(true)
    ensures Asked(ops[..k]) < Asked(ops[..n])
  {
    AskedGrows(ops, k + 1, n);
    assert ops[..k + 1][..k] == ops[..k];
  }

  // ---- Failures ------------------------------------------------------------------------

  /**
   * A sync gives up with its third failed attempt and not before; then the queue is emptied
   * into the timer, which asks for a full sync if anything did.
   */
  lemma GivesUpAfterThree(s: Scheduler)
    requires s.phase.Running?
    ensures
      var m := Next(s, AttemptEnds(false));
      if s.phase.attempt < 2 then m == s.(phase := Running(s.phase.full, s.phase.attempt + 1))
      else
        && m.phase.Emitting? && m.timer && !m.syncRequested && !m.fullSyncRequested
        && m.recoveryRequired == s.recoveryRequired && m.explicitPurchases == s.explicitPurchases
        && (m.retryIncludesAll <==> s.retryIncludesAll || s.phase.full || s.fullSyncRequested)
  {
  }

  /** Nothing but the end of its own attempt moves a running sync. */
  lemma OnlyItsAttemptsMoveIt(s: Scheduler, op: Op)
    requires s.phase.Running? && !op.AttemptEnds?
    ensures Next(s, op).phase == s.phase
  {
  }

  /** A success ends the run, the timer and the recovery, unless another sync is owed; then that one begins. */
  lemma SuccessEndsRecovery(ops: seq<Op>)
    requires Run(START, ops).phase.Running?
    ensures
      var s, m := Run(START, ops), Next(Run(START, ops), AttemptEnds(true));
      var owed := s.syncRequested || ((s.fullSyncRequested || s.retryIncludesAll) && !s.phase.full);
      && !m.timer && !m.retryIncludesAll && !m.syncRequested && !m.fullSyncRequested
      && (m.recoveryRequired <==> owed) && (m.phase.Running? <==> owed) && (!owed ==> m.phase.Finalizing?)
  {
    InvAlong(START, ops);
  }

  // ---- The retry delay -----------------------------------------------------------------

  predicate Arms(s: Scheduler, op: Op) {
    !s.timer && Next(s, op).timer
  }

  /** How often the timer was set since the last success. */
  function Streak(ops: seq<Op>): nat {
    if ops == [] then 0
    else
      var front, op := ops[..|ops| - 1], ops[|ops| - 1];
      var s := Run(START, front);
      if Succeeds(s, op) then 0 else if Arms(s, op) then Streak(front) + 1 else Streak(front)
  }

  /** 15 seconds, doubled each time, at most 15 minutes. */
  function Backoff(n: nat): nat {
    if n == 0 then 15_000 else Min(2 * Backoff(n - 1), 900_000)
  }

  function Min(a: nat, b: nat): nat {
    if a < b then a else b
  }

  lemma DelayStep(s: Scheduler, op: Op)
    ensures
      Next(s, op).retryDelayMs ==
      if Succeeds(s, op) then 15_000 else if Arms(s, op) then Min(2 * s.retryDelayMs, 900_000) else s.retryDelayMs
  {
  }

  lemma {:induction false} DelayIsExponential(ops: seq<Op>)
    ensures Run(START, ops).retryDelayMs == Backoff(Streak(ops))
  {
    if ops != [] {
      var front := ops[..|ops| - 1];
      var streak := Streak(front);
      DelayIsExponential(front);
      DelayStep(Run(START, front), ops[|ops| - 1]);
      assert Backoff(streak + 1) == Min(2 * Backoff(streak), 900_000);
    }
  }

  // ---- Purchases -----------------------------------------------------------------------

  /** Purchases begun and not ended; an end without a beginning does not happen. */
  function OpenPurchases(ops: seq<Op>): nat {
    if ops == [] then 0
    else
      var before, op := OpenPurchases(ops[..|ops| - 1]), ops[|ops| - 1];
      if op.PurchaseBegins? then before + 1 else if op.PurchaseEnds? && before > 0 then before - 1 else before
  }

  lemma CountStep(s: Scheduler, op: Op)
    ensures
      Next(s, op).explicitPurchases ==
      if op.PurchaseBegins? then s.explicitPurchases + 1
      else if op.PurchaseEnds? && s.explicitPurchases > 0 then s.explicitPurchases - 1 else s.explicitPurchases
  {
  }

  lemma {:induction false} PurchasesAreCounted(ops: seq<Op>)
    ensures Run(START, ops).explicitPurchases == OpenPurchases(ops)
  {
    if ops != [] {
      PurchasesAreCounted(ops[..|ops| - 1]);
      CountStep(Run(START, ops[..|ops| - 1]), ops[|ops| - 1]);
    }
  }

  /** While a purchase is open no run starts; what is asked for is queued, in every run. */
  lemma PurchasesHoldRunsBack(ops: seq<Op>, op: Op)
    requires Run(START, ops).phase.Idle? && OpenPurchases(ops + [op]) > 0
    ensures Run(START, ops + [op]).phase.Idle?
    ensures Demands(Run(START, ops), op) ==> Run(START, ops + [op]).syncRequested && Run(START, ops + [op]).recoveryRequired
  {
    assert (ops + [op])[..|ops|] == ops;
    PurchasesAreCounted(ops + [op]);
  }

  /** The end of the last purchase starts what was queued meanwhile; a success without that starts nothing. */
  lemma LastPurchaseReleases(ops: seq<Op>, failed: bool)
    requires Run(START, ops).phase.Idle? && OpenPurchases(ops) == 1
    ensures
      var s, m := Run(START, ops), Next(Run(START, ops), PurchaseEnds(failed));
      && (Begins(s, PurchaseEnds(failed), m) <==> s.syncRequested || failed)
      && (Begins(s, PurchaseEnds(failed), m) ==> m.phase.full == s.fullSyncRequested)
      && (m.recoveryRequired <==> s.recoveryRequired || failed)
      && m.explicitPurchases == 0
  {
    PurchasesAreCounted(ops);
  }
}
