/**
 * The scheduler's flags, and one method for each stretch that runs on them between two
 * awaits.
 */
module GuestScheduler {
  import opened GuestSchedulerModel

  class NativeSync {
    var nativeSyncInFlight: Phase
    var nativeSyncRequested: bool
    var nativeFullSyncRequested: bool
    var nativeRecoveryRequired: bool
    var explicitPurchaseRequests: nat
    var nativeRetryTimer: bool
    var nativeRetryIncludeAllOwned: bool
    var nativeRetryDelayMs: nat

    ghost var fullRequests: nat
    ghost var fullServed: nat
    ghost var covers: nat

    ghost function Model(): Scheduler
      reads this
    {
      Scheduler(nativeSyncInFlight, nativeSyncRequested, nativeFullSyncRequested, nativeRecoveryRequired,
                explicitPurchaseRequests, nativeRetryTimer, nativeRetryIncludeAllOwned, nativeRetryDelayMs,
                fullRequests, fullServed, covers)
    }

    constructor ()
      ensures Model() == START
    {
      nativeSyncInFlight, nativeSyncRequested, nativeFullSyncRequested := Idle, false, false;
      nativeRecoveryRequired, explicitPurchaseRequests := false, 0;
      nativeRetryTimer, nativeRetryIncludeAllOwned, nativeRetryDelayMs := false, false, NATIVE_RETRY_DELAY_MS;
      fullRequests, fullServed, covers := 0, 0, 0;
    }

    /** One turn of the run's `while`, up to its first await. */
    method ContinueRun()
      modifies this
      ensures Model() == Loop(old(Model()))
    {
      if !nativeSyncRequested {
        nativeSyncInFlight := Finalizing;
        return;
      }
      var shouldIncludeAllOwned := nativeFullSyncRequested;
      nativeSyncRequested := false;
      nativeFullSyncRequested := false;
      nativeSyncInFlight := Running(shouldIncludeAllOwned, 0);
      covers := fullRequests;
    }

    method RequestNativeSync(includeAllOwned: bool)
      modifies this
      ensures Model() == Request(old(Model()), includeAllOwned)
    {
      nativeSyncRequested := true;
      nativeFullSyncRequested := nativeFullSyncRequested || includeAllOwned;
      if !nativeSyncInFlight.Idle? || explicitPurchaseRequests > 0 { return; }
      ContinueRun();
    }

    method ScheduleNativeSyncRetry(includeAllOwned: bool)
      modifies this`nativeRetryIncludeAllOwned, this`nativeRetryTimer, this`nativeRetryDelayMs
      ensures Model() == ScheduleRetry(old(Model()), includeAllOwned)
    {
      nativeRetryIncludeAllOwned := nativeRetryIncludeAllOwned || includeAllOwned;
      if nativeRetryTimer { return; }
      nativeRetryTimer := true;
      nativeRetryDelayMs := nativeRetryDelayMs * 2;
      if nativeRetryDelayMs > MAX_NATIVE_SYNC_RETRY_DELAY_MS { nativeRetryDelayMs := MAX_NATIVE_SYNC_RETRY_DELAY_MS; }
    }

    method TimerCallback()
      requires nativeRetryTimer
      modifies this
      ensures Model() == Next(old(Model()), TimerFires)
    {
      nativeRetryTimer := false;
      var shouldIncludeAllOwned := nativeRetryIncludeAllOwned;
      nativeRetryIncludeAllOwned := false;
      RequestNativeSync(shouldIncludeAllOwned);
    }

    method RecordNativeSyncSuccess(includedAllOwned: bool)
      modifies this
      ensures Model() == RecordSuccess(old(Model()), includedAllOwned)
    {
      var queuedSyncStillRequiresRecovery := nativeSyncRequested;
      var stillNeedsFullSync := (nativeFullSyncRequested || nativeRetryIncludeAllOwned) && !includedAllOwned;
      nativeRetryTimer := false;
      nativeRetryIncludeAllOwned := false;
      nativeRetryDelayMs := NATIVE_RETRY_DELAY_MS;
      nativeRecoveryRequired := queuedSyncStillRequiresRecovery || stillNeedsFullSync;
      if stillNeedsFullSync {
        nativeSyncRequested := true;
        nativeFullSyncRequested := true;
      }
      if includedAllOwned { fullServed := covers; }
    }

    /** The run wakes from an attempt. */
    method AttemptEnded(succeeded: bool)
      requires nativeSyncInFlight.Running?
      modifies this
      ensures Model() == Next(old(Model()), AttemptEnds(succeeded))
    {
      var full, attempt := nativeSyncInFlight.full, nativeSyncInFlight.attempt;
      if succeeded {
        RecordNativeSyncSuccess(full);
        ContinueRun();
      } else if attempt + 1 < NATIVE_SYNC_ATTEMPTS {
        nativeSyncInFlight := Running(full, attempt + 1);
      } else {
        ScheduleNativeSyncRetry(full || nativeFullSyncRequested);
        nativeSyncRequested := false;
        nativeFullSyncRequested := false;
        nativeSyncInFlight := Emitting;
      }
    }

    /** The run's `finally`. */
    method FinallyCallback()
      requires nativeSyncInFlight.Finalizing?
      modifies this
      ensures Model() == Next(old(Model()), Finalizes)
    {
      nativeSyncInFlight := Idle;
      if nativeSyncRequested { RequestNativeSync(nativeFullSyncRequested); }
    }

    method OnNativeEvent()
      modifies this
      ensures Model() == Next(old(Model()), StoreEvent)
    {
      nativeRecoveryRequired := true;
      RequestNativeSync(false);
    }

    method OnConfigured(playStore: bool)
      modifies this
      ensures Model() == Next(old(Model()), Configured(playStore))
    {
      nativeRecoveryRequired := true;
      if playStore { fullRequests := fullRequests + 1; }
      RequestNativeSync(playStore);
    }

    method WaitForNativeRecovery()
      modifies this
      ensures Model() == Next(old(Model()), AwaitsRecovery)
    {
      if !nativeRecoveryRequired { return; }
      if nativeSyncInFlight.Idle? { RequestNativeSync(false); }
    }

    method PurchaseEnded(failed: bool)
      requires explicitPurchaseRequests > 0
      modifies this
      ensures Model() == Next(old(Model()), PurchaseEnds(failed))
    {
      if failed {
        nativeRecoveryRequired := true;
        RequestNativeSync(false);
      }
      explicitPurchaseRequests := explicitPurchaseRequests - 1;
      if explicitPurchaseRequests == 0 && nativeSyncRequested { RequestNativeSync(nativeFullSyncRequested); }
    }
  }
}
