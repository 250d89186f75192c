/**
 * The facade and its commands, field by field, between the identity file, the store and the
 * backend.
 */
module PurchasesClient {
  import opened Options
  import opened IdentityModel
  import opened PurchasesModel

  class Purchases {
    // What outlives the process.
    var file: IdentityFile
    var queue: seq<Transaction>
    var history: seq<Transaction>
    var awaiting: seq<Transaction>
    var log: seq<Event>

    // The configured instance; meaningful while `configured`.
    var configured: bool
    var user: UserId
    var pendingIdentityTransition: Option<Transition>
    var identityTransitionPending: bool
    var nativePurchaseRecoveryRequired: bool

    ghost function Facade(): Memory
      reads this
    {
      Memory(user, pendingIdentityTransition, identityTransitionPending, nativePurchaseRecoveryRequired)
    }

    ghost function StoreModel(): Store
      reads this
    {
      Store(queue, history, awaiting)
    }

    ghost function Model(): World
      reads this
    {
      World(file, if configured then Some(Facade()) else None, StoreModel(), log)
    }

    constructor (file: IdentityFile, store: Store)
      ensures Model() == World(file, None, store, [])
    {
      this.file, this.log, this.configured := file, [], false;
      queue, history, awaiting := store.queue, store.history, store.awaiting;
      user, pendingIdentityTransition := "", None;
      identityTransitionPending, nativePurchaseRecoveryRequired := false, false;
    }

    /** The instance is gone. */
    method Crash()
      modifies this
      ensures Model() == Die(old(Model()))
    {
      configured := false;
      log := log + [Ended];
    }

    method EndIfDead(o: Outcome)
      modifies this
      ensures (Model(), o) == Stop(old(Model()), o)
    {
      if o.Died? { Crash(); }
    }

    method Write(identity: PersistedIdentity, w: DiskWrite) returns (o: Outcome)
      modifies this`file
      ensures (file, o) == Persist(old(file), identity, w)
    {
      if !ValidIdentity(identity) { return Failed; }
      if w.Succeeds? || w.FailsAfter? || w.DiesAfter? { file := Current(identity); }
      o := if w.Succeeds? then Done else if w.FailsBefore? || w.FailsAfter? then Failed else Died;
    }

    method Prepare(host: Host, source: UserId, target: UserId, kind: TransitionKind, w: DiskWrite) returns (o: Outcome)
      modifies this`file
      ensures (Model(), o) == RunPrepare(old(Model()), host, source, target, kind, w)
    {
      if !host.Command? { return Done; }
      o := Write(Transitioning(source, target, kind), w);
    }

    method Commit(host: Host, target: UserId, w: DiskWrite) returns (o: Outcome)
      modifies this`file
      ensures (Model(), o) == RunCommit(old(Model()), host, target, w)
    {
      if host.Library? { return Done; }
      o := Write(Settled(target), w);
    }

    method EnsureIdentityTransitionAllowed(kind: TransitionKind, target: UserId, tracked: bool) returns (ok: bool)
      ensures ok == TransitionAllowed(Facade(), kind, target, tracked)
    {
      match pendingIdentityTransition
      case None => ok := true;
      case Some(current) => ok := tracked && current.kind == kind && current.target == target;
    }

    method MarkDurableIdentityTransition(kind: TransitionKind, target: UserId, tracked: bool)
      modifies this`pendingIdentityTransition, this`identityTransitionPending
      ensures Facade() == Mark(old(Facade()), kind, target, tracked)
    {
      if tracked {
        pendingIdentityTransition := Some(Transition(kind, target));
        identityTransitionPending := true;
      }
    }

    method ClearDurableIdentityTransition(tracked: bool)
      modifies this`pendingIdentityTransition, this`identityTransitionPending
      ensures Facade() == Clear(old(Facade()), tracked)
    {
      if tracked {
        pendingIdentityTransition := None;
        identityTransitionPending := false;
      }
    }

    /** Mark, prepare, call, commit, switch, clear: the tail both operations share. */
    method RunTransition(kind: TransitionKind, target: UserId, host: Host, io: IdentityIo) returns (o: Outcome)
      requires configured
      modifies this
      ensures (Model(), o) == Transit(old(Model()), old(Facade()), kind, target, host, io)
    {
      var current := user;
      MarkDurableIdentityTransition(kind, target, host.Tracks());
      o := Prepare(host, current, target, kind, io.prepare);
      if !o.Done? { EndIfDead(o); return; }
      if Reached(io.call) {
        log := log + [if kind.LogInOperation? then Identified(current, target, file, Accepts(io.call)) else Fetched(target)];
      }
      o := ReplyOutcome(io.call);
      if !o.Done? { EndIfDead(o); return; }
      o := CommitTransition(current, target, host, io.commit);
    }

    /** Commit, switch the user, and only then clear what was pending. */
    method CommitTransition(source: UserId, target: UserId, host: Host, w: DiskWrite) returns (o: Outcome)
      requires configured
      modifies this
      ensures
        var (committed, written) := RunCommit(old(Model()), host, target, w);
        var next := Clear(old(Facade()).(user := target), host.Tracks());
        (Model(), o) == if !written.Done? then Stop(committed, written)
                        else (Record(Update(committed, next), true, Switched(source, target)), Done)
    {
      o := Commit(host, target, w);
      if !o.Done? { EndIfDead(o); return; }
      user := target;
      log := log + [Switched(source, target)];
      ClearDurableIdentityTransition(host.Tracks());
    }

    method LogInInternal(target: UserId, host: Host, io: IdentityIo) returns (o: Outcome)
      modifies this
      ensures (Model(), o) == LogIn(old(Model()), target, host, io)
    {
      if !configured || !ValidAppUserId(target) { return Failed; }
      var allowed := EnsureIdentityTransitionAllowed(LogInOperation, target, host.Tracks());
      if !allowed { return Failed; }
      if user != target && nativePurchaseRecoveryRequired { return Failed; }
      if user == target {
        o := Commit(host, user, io.commit);
        if !o.Done? { EndIfDead(o); return; }
        ClearDurableIdentityTransition(host.Tracks());
        o := ReplyOutcome(io.refresh);
        EndIfDead(o);
        return;
      }
      o := RunTransition(LogInOperation, target, host, io);
    }

    method LogOutInternal(resumed: Option<UserId>, newAnonymous: UserId, host: Host, io: IdentityIo) returns (o: Outcome)
      modifies this
      ensures (Model(), o) == LogOut(old(Model()), resumed, newAnonymous, host, io)
    {
      if !configured || (resumed.Some? && !IsAnonymousId(resumed.value)) { return Failed; }
      if IsAnonymousId(user) { return Failed; }
      if nativePurchaseRecoveryRequired { return Failed; }
      var target := newAnonymous;
      if resumed.Some? {
        target := resumed.value;
      } else if host.Tracks() && pendingIdentityTransition.Some? && pendingIdentityTransition.value.kind.LogOutOperation? {
        target := pendingIdentityTransition.value.target;
      }
      var allowed := EnsureIdentityTransitionAllowed(LogOutOperation, target, host.Tracks());
      if !allowed { return Failed; }
      o := RunTransition(LogOutOperation, target, host, io);
    }

    method LogInCommand(loaded: Loaded, target: UserId, io: IdentityIo) returns (o: Outcome)
      modifies this
      ensures (Model(), o) == PurchasesModel.LogInCommand(old(Model()), loaded, target, io)
    {
      if !configured || loaded.LoadFailed? { return Failed; }
      if loaded.identity.Some? && loaded.identity.value.pending.Some? {
        var identity := loaded.identity.value;
        if identity.operation != Some(LogInOperation) || identity.pending != Some(target) { return Failed; }
      }
      o := LogInInternal(target, Command, io);
    }

    method LogOutCommand(loaded: Loaded, newAnonymous: UserId, io: IdentityIo) returns (o: Outcome)
      modifies this
      ensures (Model(), o) == PurchasesModel.LogOutCommand(old(Model()), loaded, newAnonymous, io)
    {
      if !configured || loaded.LoadFailed? { return Failed; }
      if loaded.identity.Some? && loaded.identity.value.pending.Some? {
        var identity := loaded.identity.value;
        if identity.operation != Some(LogOutOperation) { return Failed; }
        o := LogOutInternal(identity.pending, newAnonymous, Resume, io);
      } else {
        o := LogOutInternal(None, newAnonymous, Command, io);
      }
    }

    method ResumePersistedIdentityTransition(identity: PersistedIdentity, newAnonymous: UserId, io: IdentityIo) returns (o: Outcome)
      modifies this
      ensures (Model(), o) == ResumeTransition(old(Model()), identity, newAnonymous, io)
    {
      if identity.pending.None? { return Done; }
      if identity.operation == Some(LogOutOperation) {
        o := LogOutInternal(identity.pending, newAnonymous, Resume, io);
      } else {
        o := LogInInternal(identity.pending.value, Resume, io);
      }
    }

    method DropInstance(o: Outcome)
      modifies this
      ensures (Model(), o) == Abandon(old(Model()), o)
    {
      if configured { Crash(); }
    }

    method Configure(explicitId: Option<UserId>, newAnonymous: UserId, io: ConfigureIo) returns (o: Outcome)
      modifies this
      ensures (Model(), o) == PurchasesModel.Configure(old(Model()), explicitId, newAnonymous, io)
    {
      if configured { return Done; }
      var loaded := Load(file);
      if loaded.LoadFailed? { return Failed; }
      var explicitUser := explicitId;
      if explicitId.Some? && explicitId.value == "" { explicitUser := None; }
      var initial := ResolveInitialIdentity(explicitUser, loaded.identity, newAnonymous);
      if initial.Conflict? || !io.setupSucceeds { return Failed; }
      CreateInstance(initial.user, newAnonymous);
      o := Done;
      if initial.shouldResumePending && loaded.identity.Some? {
        o := ResumePersistedIdentityTransition(loaded.identity.value, newAnonymous, io.identity);
      }
      if !o.Done? || !configured { DropInstance(o); return; }
      o := SettleInitialIdentity(io.settle);
    }

    method CreateInstance(initialUser: UserId, newAnonymous: UserId)
      modifies this
      ensures Model() == Begin(old(Model()), NewInstance(initialUser, newAnonymous))
    {
      user := if IsBlank(initialUser) then newAnonymous else initialUser;
      pendingIdentityTransition, identityTransitionPending, nativePurchaseRecoveryRequired := None, false, false;
      configured := true;
      log := log + [Began(user)];
    }

    method SettleInitialIdentity(settle: DiskWrite) returns (o: Outcome)
      requires configured
      modifies this
      ensures
        var (file', o') := Persist(old(file), Settled(old(user)), settle);
        var written := old(Model()).(file := file');
        (Model(), o) == if o'.Done? then (written, Done) else Abandon(written, o')
    {
      o := Write(Settled(user), settle);
      if !o.Done? { DropInstance(o); }
    }

    // ---- Receipts ----------------------------------------------------------------------

    method EnsureReceiptOperationsReady() returns (ok: bool)
      ensures ok == ReceiptOperationsReady(Facade())
    {
      if identityTransitionPending { return false; }
      ok := !nativePurchaseRecoveryRequired;
    }

    /** The store takes the transaction out of its queue and keeps it as finished history. */
    method FinishTransaction(token: Token)
      modifies this`queue, this`history
      ensures StoreModel() == FinishIn(old(StoreModel()), token)
    {
      var kept, taken := Split(queue, token);
      queue, history := kept, history + MarkFinished(taken);
    }

    method Split(ts: seq<Transaction>, token: Token) returns (kept: seq<Transaction>, taken: seq<Transaction>)
      ensures kept == WithoutToken(ts, token) && taken == WithToken(ts, token)
    {
      kept, taken := [], [];
      var i := |ts|;
      while i > 0
        invariant 0 <= i <= |ts|
        invariant kept == WithoutToken(ts[i..], token) && taken == WithToken(ts[i..], token)
      {
        i := i - 1;
        assert ts[i..][1..] == ts[i + 1..];
        if ts[i].token != token { kept := [ts[i]] + kept; } else { taken := [ts[i]] + taken; }
      }
      assert ts[0..] == ts;
    }

    /** One round of a receipt: post it and, only once it is accepted, finish the transaction. */
    method PostReceiptThenFinish(postAs: UserId, t: Transaction, io: PostIo) returns (o: Outcome)
      requires configured
      modifies this
      ensures (Model(), o) == PostThenFinish(old(Model()), postAs, t, io)
      ensures o.Done? ==> configured && Facade() == old(Facade())
    {
      if Reached(io.post) { log := log + [Posted(t, postAs, Accepts(io.post))]; }
      o := ReplyOutcome(io.post);
      if !o.Done? { EndIfDead(o); return; }
      log := log + [FinishRequested(t.token, postAs)];
      if Removes(io.finish) { FinishTransaction(t.token); }
      o := FinishOutcome(io.finish);
      EndIfDead(o);
    }

    method PurchaseInternal(io: PurchaseIo) returns (o: Outcome)
      modifies this
      ensures (Model(), o) == Purchase(old(Model()), io)
    {
      if !configured { return Failed; }
      var ready := EnsureReceiptOperationsReady();
      if !ready || !io.inputAccepted { return Failed; }
      var appUserId := user;
      nativePurchaseRecoveryRequired := true;
      var transaction := Transaction(io.token, Some(Launch(appUserId, |log|, Left(io.store).Deferred?)), false);
      log := log + [Launched(io.token, appUserId)];
      match Left(io.store) {
        case Nothing =>
        case Created => queue := queue + [transaction];
        case Deferred => awaiting := awaiting + [transaction];
      }
      if !io.store.Returns? {
        o := if io.store.DiesAt? then Died else Failed;
        EndIfDead(o);
        return;
      }
      o := PostReceiptThenFinish(appUserId, transaction, io.receipt);
      if !o.Done? { return; }
      nativePurchaseRecoveryRequired := false;
      if io.mismatchedPlan { o := Failed; }
    }

    /** The receipt loop of a sync; it leaves at the first receipt that does not go through. */
    method PostQueue(postAs: UserId, purchases: seq<Transaction>, io: seq<PostIo>) returns (finished: nat, o: Outcome)
      requires configured
      modifies this
      ensures (Model(), finished, o) == PostAll(old(Model()), postAs, purchases, io)
      ensures o.Done? ==> configured && Facade() == old(Facade())
    {
      finished, o := 0, Done;
      ghost var before := Model();
      for i := 0 to |purchases|
        invariant configured && o.Done? && Facade() == old(Facade())
        invariant (Model(), finished, o) == PostAll(before, postAs, purchases[..i], io)
      {
        OneMoreReceipt(before, postAs, purchases, io, i);
        o := PostReceiptThenFinish(postAs, purchases[i], ReceiptIo(io, i));
        if !o.Done? {
          StoppedLoop(before, postAs, purchases, io, i + 1);
          return;
        }
        finished := finished + 1;
      }
      assert purchases[..|purchases|] == purchases;
    }

    lemma OneMoreReceipt(w: World, postAs: UserId, purchases: seq<Transaction>, io: seq<PostIo>, i: nat)
      requires i < |purchases| && PostAll(w, postAs, purchases[..i], io).2.Done?
      ensures
        var (before, done, _) := PostAll(w, postAs, purchases[..i], io);
        var (after, o) := PostThenFinish(before, postAs, purchases[i], ReceiptIo(io, i));
        PostAll(w, postAs, purchases[..i + 1], io) == (after, if o.Done? then done + 1 else done, o)
    {
      assert purchases[..i + 1][..i] == purchases[..i];
    }

    /** A loop that stopped does nothing for the receipts left. */
    lemma {:induction false} StoppedLoop(w: World, postAs: UserId, purchases: seq<Transaction>, io: seq<PostIo>, n: nat)
      requires n <= |purchases|
      requires !PostAll(w, postAs, purchases[..n], io).2.Done?
      ensures PostAll(w, postAs, purchases, io) == PostAll(w, postAs, purchases[..n], io)
    {
      if n == |purchases| {
        assert purchases[..n] == purchases;
      } else {
        var shorter := purchases[..|purchases| - 1];
        assert shorter[..n] == purchases[..n];
        StoppedLoop(w, postAs, shorter, io, n);
      }
    }

    method SyncStorePurchases(mode: SyncMode, io: SyncIo) returns (o: Outcome)
      modifies this
      ensures (Model(), o) == Sync(old(Model()), mode, io)
    {
      if !configured || identityTransitionPending { return Failed; }
      if !mode.ExplicitRestore? { nativePurchaseRecoveryRequired := true; }
      o := ReplyOutcome(io.query);
      if !o.Done? { EndIfDead(o); return; }
      var purchases := if mode.PendingQueue? then queue else queue + history;
      queue := queue + Delivered(io.arrivals);
      var appUserId := user;
      if purchases == [] {
        if Reached(io.refresh) { log := log + [Fetched(appUserId)]; }
        o := ReplyOutcome(io.refresh);
        if !o.Done? { EndIfDead(o); return; }
        nativePurchaseRecoveryRequired := false;
        return;
      }
      nativePurchaseRecoveryRequired := true;
      var finished;
      finished, o := PostQueue(appUserId, purchases, io.receipts);
      if !o.Done? { return; }
      nativePurchaseRecoveryRequired := false;
    }
  }
}
