/** When each operation of the facade succeeds, and what it then leaves behind. */
module PurchasesOutcomes {
  import opened Options
  import opened IdentityModel
  import opened PurchasesModel
  import opened PurchasesTheorems
  import opened IdentityTheorems

  // ---- Purchases -----------------------------------------------------------------------

  /** The store may open: an instance, no barrier, and an input it takes. */
  predicate MayPurchase(w: World, io: PurchaseIo) {
    w.memory.Some? && !w.memory.value.transitionPending && !w.memory.value.recoveryRequired && io.inputAccepted
  }

  /** Nothing goes wrong between the store, the backend and the finish. */
  predicate GoesThrough(io: PurchaseIo) {
    io.store == Returns && io.receipt == PostIo(Answered(true), Finishes)
  }

  function Bought(w: World, io: PurchaseIo): Transaction
    requires w.memory.Some?
  {
    Transaction(io.token, Some(Launch(w.memory.value.user, |w.log|, false)), false)
  }

  /** A purchase that may not open its store changes nothing. */
  lemma RefusedPurchase(w: World, io: PurchaseIo)
    ensures !MayPurchase(w, io) ==> Purchase(w, io) == (w, Failed)
  {
  }

  /**
   * A purchase succeeds exactly if it may open the store, the store returns, the backend
   * accepts the receipt, the finish goes through, and the plan is the one launched.
   */
  lemma PurchaseSucceedsExactly(w: World, io: PurchaseIo)
    ensures Purchase(w, io).1.Done? <==> MayPurchase(w, io) && GoesThrough(io) && !io.mismatchedPlan
  {
  }

  /** The plan decides the answer alone: with an earlier plan a purchase that went through fails over the same world. */
  lemma PlanDecidesAnswer(w: World, io: PurchaseIo)
    requires MayPurchase(w, io) && GoesThrough(io)
    ensures Purchase(w, io.(mismatchedPlan := true)) == (Purchase(w, io.(mismatchedPlan := false)).0, Failed)
    ensures Purchase(w, io.(mismatchedPlan := false)).1 == Done
  {
  }

  /** That world has no recovery, nothing of the token in the queue, and the purchase among the finished. */
  lemma PurchaseThatWentThrough(w: World, io: PurchaseIo)
    requires MayPurchase(w, io) && GoesThrough(io)
    ensures
      var after := Purchase(w, io).0;
      && after.memory == w.memory && after.file == w.file && after.store.awaiting == w.store.awaiting
      && (forall t :: t in after.store.queue <==> t in w.store.queue && t.token != io.token)
      && Bought(w, io).(finished := true) in after.store.history
      && after.log == w.log + [Launched(io.token, w.memory.value.user)] + [Posted(Bought(w, io), w.memory.value.user, true)]
                      + [FinishRequested(io.token, w.memory.value.user)]
  {
    var store := w.store.(queue := w.store.queue + [Bought(w, io)]);
    FinishMoves(store, Bought(w, io));
    assert Purchase(w, io).0.store == FinishIn(store, io.token);
  }

  /** Finishing takes the token out of the queue, and its transactions into the history. */
  lemma FinishMoves(store: Store, t: Transaction)
    requires t in store.queue
    ensures
      var after := FinishIn(store, t.token);
      && after.awaiting == store.awaiting && store.history <= after.history && t.(finished := true) in after.history
      && (forall u :: u in after.queue <==> u in store.queue && u.token != t.token)
  {
    var taken := WithToken(store.queue, t.token);
    assert t in taken;
    var i :| 0 <= i < |taken| && taken[i] == t;
    assert MarkFinished(taken)[i] == t.(finished := true);
  }

  /** A purchase that stops on the way leaves the recovery required, and the purchase where it stopped. */
  lemma StoppedPurchase(w: World, io: PurchaseIo)
    requires MayPurchase(w, io) && !GoesThrough(io)
    ensures
      var (after, o) := Purchase(w, io);
      var dies := io.store.DiesAt? || (io.store.Returns? && (io.receipt.post.DiesUnsent? || io.receipt.post.DiesSent?
                                                              || (io.receipt.post == Answered(true) && io.receipt.finish.FinishDies?)));
      && o == (if dies then Died else Failed) && after.file == w.file
      && after.memory == (if dies then None else Some(w.memory.value.(recoveryRequired := true)))
      && Launched(io.token, w.memory.value.user) in after.log
      && (!io.store.Returns? ==>
            && |after.log| == |w.log| + (if dies then 2 else 1)
            && after.store.history == w.store.history
            && (forall t :: t in after.store.queue <==> t in w.store.queue || (io.store.leaves == Created && t == Bought(w, io)))
            && (forall t :: t in after.store.awaiting <==>
                  t in w.store.awaiting || (io.store.leaves == Deferred && t == Bought(w, io).(launch := Some(Launch(w.memory.value.user, |w.log|, true))))))
      && (io.store.Returns? && io.receipt.post != Answered(true) ==> Bought(w, io) in after.store.queue && after.store.history == w.store.history)
  {
    assert |w.log + [Launched(io.token, w.memory.value.user)]| == |w.log| + 1;
    assert (w.log + [Launched(io.token, w.memory.value.user)])[|w.log|] == Launched(io.token, w.memory.value.user);
  }

  // ---- Syncs ---------------------------------------------------------------------------

  predicate AllAccepted(io: seq<PostIo>, n: nat) {
    forall i :: 0 <= i < n && i < |io| ==> io[i] == PostIo(Answered(true), Finishes)
  }

  lemma {:induction false} PostsAllExactly(w: World, user: UserId, purchases: seq<Transaction>, io: seq<PostIo>)
    ensures PostAll(w, user, purchases, io).2.Done? <==> AllAccepted(io, |purchases|)
  {
    if purchases != [] {
      PostsAllExactly(w, user, purchases[..|purchases| - 1], io);
    }
  }

  /** What a query of the mode finds. */
  function Found(store: Store, mode: SyncMode): seq<Transaction> {
    match mode
    case PendingQueue => store.queue
    case FullQueue => store.queue + store.history
    case ExplicitRestore => store.queue + store.history
  }

  /**
   * A sync succeeds exactly if there is an instance without a pending transition, the query is
   * answered, and every receipt it found is accepted and finished, or, if it found none, the
   * refresh is answered. Then the recovery is over, and nothing it found is left in the queue.
   */
  lemma SyncSucceedsExactly(w: World, mode: SyncMode, io: SyncIo)
    ensures
      Sync(w, mode, io).1.Done? <==>
      && w.memory.Some? && !w.memory.value.transitionPending && io.query == Answered(true)
      && (if Found(w.store, mode) == [] then io.refresh == Answered(true) else AllAccepted(io.receipts, |Found(w.store, mode)|))
    ensures Sync(w, mode, io).1.Done? ==>
              var after := Sync(w, mode, io).0;
              && after.memory == Some(w.memory.value.(recoveryRequired := false))
              && (Found(w.store, mode) == [] ==>
                    && after.log == w.log + [Fetched(w.memory.value.user)]
                    && after.store == w.store.(queue := w.store.queue + Delivered(io.arrivals)))
  {
    if w.memory.Some? && !w.memory.value.transitionPending {
      PostsAllExactly(Posting(w, io), w.memory.value.user, Queried(w.store, mode), io.receipts);
    }
  }

  /** A sync over a pending transition, or without an instance, changes nothing. */
  lemma RefusedSync(w: World, mode: SyncMode, io: SyncIo)
    requires w.memory.None? || w.memory.value.transitionPending
    ensures Sync(w, mode, io) == (w, Failed)
  {
  }

  // ---- Identity changes ----------------------------------------------------------------

  /** A transition whose record, if its host keeps one, is written, called and committed without fault. */
  predicate AllWell(host: Host, io: IdentityIo) {
    && (host.Command? ==> io.prepare == Succeeds)
    && io.call == Answered(true)
    && (!host.Library? ==> io.commit == Succeeds)
  }

  /** Nothing stands in the way: no other transition is pending, or exactly this one, which a tracking host may retry. */
  predicate MayChange(m: Memory, kind: TransitionKind, target: UserId, host: Host) {
    m.pending.None? || (!host.Library? && m.pending == Some(Transition(kind, target)))
  }

  /** What a change of user that went through leaves behind. */
  predicate Changed(w: World, after: World, kind: TransitionKind, target: UserId, host: Host)
    requires w.memory.Some?
  {
    var m := w.memory.value;
    && after.memory == Some(if host.Library? then m.(user := target) else m.(user := target, pending := None, transitionPending := false))
    && after.file == (if host.Library? then w.file else Current(PersistedIdentity(target, None, None)))
    && after.store == w.store
    && |after.log| == |w.log| + 2 && w.log <= after.log && after.log[|w.log| + 1] == Switched(m.user, target)
    && (if kind == LogInOperation
        then after.log[|w.log|].Identified? && after.log[|w.log|].source == m.user && after.log[|w.log|].target == target && after.log[|w.log|].accepted
        else after.log[|w.log|] == Fetched(target))
  }

  lemma TransitSucceedsExactly(w: World, m: Memory, kind: TransitionKind, target: UserId, host: Host, io: IdentityIo)
    requires w.memory == Some(m) && ValidAppUserId(m.user) && ValidAppUserId(target)
    ensures Transit(w, m, kind, target, host, io).1.Done? <==> AllWell(host, io)
    ensures AllWell(host, io) ==> Changed(w, Transit(w, m, kind, target, host, io).0, kind, target, host)
  {
  }

  /**
   * A login to another user succeeds exactly if the id is valid, no recovery is required,
   * nothing else is pending and all goes well; then that user is active, and a tracking host's
   * file is settled on it.
   */
  lemma LoginSucceedsExactly(w: World, target: UserId, host: Host, io: IdentityIo)
    requires w.memory.Some? && ValidAppUserId(w.memory.value.user) && w.memory.value.user != target
    ensures
      LogIn(w, target, host, io).1.Done? <==>
      && ValidAppUserId(target) && !w.memory.value.recoveryRequired
      && MayChange(w.memory.value, LogInOperation, target, host) && AllWell(host, io)
    ensures LogIn(w, target, host, io).1.Done? ==> Changed(w, LogIn(w, target, host, io).0, LogInOperation, target, host)
  {
    if ValidAppUserId(target) { TransitSucceedsExactly(w, w.memory.value, LogInOperation, target, host, io); }
  }

  /** A login to the user who is active already only settles the file and refreshes; it sends no login. */
  lemma LoginToSelf(w: World, host: Host, io: IdentityIo)
    requires w.memory.Some? && ValidAppUserId(w.memory.value.user) && MayChange(w.memory.value, LogInOperation, w.memory.value.user, host)
    ensures
      var m := w.memory.value;
      var (after, o) := LogIn(w, m.user, host, io);
      && (o.Done? <==> (!host.Library? ==> io.commit == Succeeds) && io.refresh == Answered(true))
      && (forall e :: e in after.log ==> e in w.log || e == Ended)
      && (after.memory.Some? ==> after.memory.value.user == m.user && after.memory.value.recoveryRequired == m.recoveryRequired)
      && (o.Done? && !host.Library? ==> after.file == Current(PersistedIdentity(m.user, None, None)) && after.memory.value.pending.None?)
      && after.store == w.store
  {
  }

  /** Without an instance, with an invalid id, or against what is pending, a login changes nothing. */
  lemma RefusedLogin(w: World, target: UserId, host: Host, io: IdentityIo)
    requires
      || w.memory.None? || !ValidAppUserId(target) || !MayChange(w.memory.value, LogInOperation, target, host)
      || (w.memory.value.user != target && w.memory.value.recoveryRequired)
    ensures LogIn(w, target, host, io) == (w, Failed)
  {
  }

  /** The anonymous user a logout ends on: the one it resumes, the one pending, or the generated one. */
  function AnonymousTarget(m: Memory, resumed: Option<UserId>, newAnonymous: UserId, host: Host): UserId {
    match resumed
    case Some(id) => id
    case None =>
      if !host.Library? && m.pending.Some? && m.pending.value.kind == LogOutOperation then m.pending.value.target else newAnonymous
  }

  /**
   * A logout succeeds exactly if somebody is logged in, no recovery is required, nothing else
   * is pending and all goes well. With nothing pending and nothing to resume it ends on the
   * generated id.
   */
  lemma LogoutSucceedsExactly(w: World, resumed: Option<UserId>, newAnonymous: UserId, host: Host, io: IdentityIo)
    requires w.memory.Some? && ValidAppUserId(w.memory.value.user) && IsAnonymousId(newAnonymous) && BarriersOk(w.memory.value)
    ensures
      var m := w.memory.value;
      var target := AnonymousTarget(m, resumed, newAnonymous, host);
      && (LogOut(w, resumed, newAnonymous, host, io).1.Done? <==>
            && (resumed.Some? ==> IsAnonymousId(resumed.value))
            && !IsAnonymousId(m.user) && !m.recoveryRequired
            && MayChange(m, LogOutOperation, target, host) && AllWell(host, io))
      && (LogOut(w, resumed, newAnonymous, host, io).1.Done? ==>
            Changed(w, LogOut(w, resumed, newAnonymous, host, io).0, LogOutOperation, target, host))
  {
    var m := w.memory.value;
    var target := AnonymousTarget(m, resumed, newAnonymous, host);
    if IsAnonymousId(target) {
      AnonymousIdsAreValid(target);
      TransitSucceedsExactly(w, m, LogOutOperation, target, host, io);
    }
  }

  lemma RefusedLogout(w: World, resumed: Option<UserId>, newAnonymous: UserId, host: Host, io: IdentityIo)
    requires
      || w.memory.None? || IsAnonymousId(w.memory.value.user) || w.memory.value.recoveryRequired
      || (resumed.Some? && !IsAnonymousId(resumed.value))
      || !MayChange(w.memory.value, LogOutOperation, AnonymousTarget(w.memory.value, resumed, newAnonymous, host), host)
    ensures LogOut(w, resumed, newAnonymous, host, io) == (w, Failed)
  {
  }

  // ---- The commands --------------------------------------------------------------------

  /** The file, as the command read it, names a transition. */
  predicate NamesPending(l: Loaded) {
    l.Loaded? && l.identity.Some? && l.identity.value.pending.Some?
  }

  /**
   * A login command runs the tracked login, unless it could not read the file or read another
   * transition there: then it changes nothing.
   */
  lemma LoginCommandRuns(w: World, l: Loaded, target: UserId, io: IdentityIo)
    ensures
      var mine := l.Loaded? && (NamesPending(l) ==> l.identity.value.operation == Some(LogInOperation) && l.identity.value.pending == Some(target));
      LogInCommand(w, l, target, io) == if mine && w.memory.Some? then LogIn(w, target, Command, io) else (w, Failed)
  {
  }

  /** A logout command resumes the logout it read, starts a new one if it read none, and is refused by a login. */
  lemma LogoutCommandRuns(w: World, l: Loaded, newAnonymous: UserId, io: IdentityIo)
    ensures
      LogOutCommand(w, l, newAnonymous, io) ==
      if w.memory.None? || l.LoadFailed? || (NamesPending(l) && l.identity.value.operation != Some(LogOutOperation)) then (w, Failed)
      else if NamesPending(l) then LogOut(w, l.identity.value.pending, newAnonymous, Resume, io)
      else LogOut(w, None, newAnonymous, Command, io)
  {
  }

  // ---- Configuring ---------------------------------------------------------------------

  /** What a file is read as. */
  lemma FilesRead(file: IdentityFile)
    ensures file.Missing? ==> Load(file) == Loaded(None)
    ensures file.Garbage? ==> Load(file) == LoadFailed
    ensures file.Legacy? ==> Load(file) == if ValidAppUserId(file.id) then Loaded(Some(PersistedIdentity(file.id, None, None))) else LoadFailed
    ensures file.Current? ==>
              var i := file.identity;
              var valid := ValidAppUserId(i.current) && (i.pending.Some? <==> i.operation.Some?) && (i.pending.Some? ==> ValidAppUserId(i.pending.value));
              Load(file) == if valid then Loaded(Some(i)) else LoadFailed
  {
  }

  /** A write that reports success is read back; one that fails leaves the old file or the new one. */
  lemma WritesRead(file: IdentityFile, i: PersistedIdentity, d: DiskWrite)
    ensures
      var (after, o) := Persist(file, i, d);
      var valid := Load(Current(i)) == Loaded(Some(i));
      && (o.Done? <==> valid && d == Succeeds)
      && (o.Died? <==> valid && (d == DiesBefore || d == DiesAfter))
      && after == if valid && (d == Succeeds || d == FailsAfter || d == DiesAfter) then Current(i) else file
  {
  }

  /** Whom a configuration makes the user: the file's pending target, else the given id, else the file's, else a new one. */
  function ConfiguredUser(l: Loaded, explicitId: Option<UserId>, newAnonymous: UserId): UserId {
    if NamesPending(l) then l.identity.value.pending.value
    else if explicitId.Some? && !IsBlank(explicitId.value) then explicitId.value
    else if explicitId.Some? && explicitId.value != "" then newAnonymous
    else if l.Loaded? && l.identity.Some? then l.identity.value.current
    else newAnonymous
  }

  /** An id given along with a transition that leads elsewhere. */
  predicate Contradicts(l: Loaded, explicitId: Option<UserId>) {
    NamesPending(l) && explicitId.Some? && explicitId.value != "" && explicitId != l.identity.value.pending
  }

  /** A configured process is left alone; an unreadable file, a contradicting id or a failed setup changes nothing. */
  lemma RefusedConfigure(w: World, explicitId: Option<UserId>, newAnonymous: UserId, io: ConfigureIo)
    ensures w.memory.Some? ==> Configure(w, explicitId, newAnonymous, io) == (w, Done)
    ensures w.memory.None? && (Load(w.file).LoadFailed? || Contradicts(Load(w.file), explicitId) || !io.setupSucceeds) ==>
              Configure(w, explicitId, newAnonymous, io) == (w, Failed)
  {
  }

  /**
   * With nothing pending in the file, a configuration succeeds exactly if the setup does, the
   * id is valid and the file can be settled on it; then that id is the user, with no barrier.
   */
  lemma ConfigureSettlesExactly(w: World, explicitId: Option<UserId>, newAnonymous: UserId, io: ConfigureIo)
    requires w.memory.None? && Load(w.file).Loaded? && !NamesPending(Load(w.file)) && IsAnonymousId(newAnonymous)
    ensures
      var user := ConfiguredUser(Load(w.file), explicitId, newAnonymous);
      var (after, o) := Configure(w, explicitId, newAnonymous, io);
      && (o.Done? <==> io.setupSucceeds && ValidAppUserId(user) && io.settle == Succeeds)
      && (o.Done? ==>
            && after.memory == Some(Memory(user, None, false, false)) && after.log == w.log + [Began(user)])
      && (!o.Done? ==> after.memory.None?)
      && after.store == w.store
      && (var lands := io.settle == Succeeds || io.settle == FailsAfter || io.settle == DiesAfter;
          after.file == if io.setupSucceeds && ValidAppUserId(user) && lands then Current(PersistedIdentity(user, None, None)) else w.file)
  {
    AnonymousIdsAreValid(newAnonymous);
  }

  /** The recorded transition is one that can be resumed: a login, or a logout of somebody to an anonymous id. */
  predicate CanResume(i: PersistedIdentity)
    requires i.pending.Some?
  {
    i.operation == Some(LogInOperation) || (IsAnonymousId(i.pending.value) && !IsAnonymousId(i.current))
  }

  /** Resuming commits; it asks the backend for the user's data if nobody changes, and for the change otherwise. */
  predicate ResumesWell(i: PersistedIdentity, io: IdentityIo) {
    && io.commit == Succeeds
    && if i.operation == Some(LogInOperation) && i.pending.Some? && i.pending.value == i.current then io.refresh == Answered(true) else io.call == Answered(true)
  }

  /**
   * Over a pending transition that the given id does not contradict, it succeeds exactly if the
   * resumed operation and the settling do, and ends on the transition's target.
   */
  lemma ConfigureResumesExactly(w: World, explicitId: Option<UserId>, newAnonymous: UserId, io: ConfigureIo)
    requires w.memory.None? && NamesPending(Load(w.file)) && !Contradicts(Load(w.file), explicitId) && io.setupSucceeds && AllAhead(w.log)
    ensures
      var i := Load(w.file).identity.value;
      var target := i.pending.value;
      var (after, o) := Configure(w, explicitId, newAnonymous, io);
      && (o.Done? <==> CanResume(i) && ResumesWell(i, io.identity) && io.settle == Succeeds)
      && (o.Done? ==> after.memory == Some(Memory(target, None, false, false)) && after.file == Current(PersistedIdentity(target, None, None)))
      && (!o.Done? ==> after.memory.None?)
  {
    var i := Load(w.file).identity.value;
    var m := Memory(i.current, None, false, false);
    assert NewInstance(i.current, newAnonymous) == m;
    ResumeSucceedsExactly(Begin(w, m), i, newAnonymous, io.identity);
    ConfigureOutcomes(w, explicitId, newAnonymous, io);
  }

  lemma ResumeSucceedsExactly(w: World, i: PersistedIdentity, newAnonymous: UserId, io: IdentityIo)
    requires w.memory == Some(Memory(i.current, None, false, false)) && i.pending.Some? && i.operation.Some?
    requires ValidAppUserId(i.current) && ValidAppUserId(i.pending.value)
    ensures
      var (after, o) := ResumeTransition(w, i, newAnonymous, io);
      && (o.Done? <==> CanResume(i) && ResumesWell(i, io))
      && (o.Done? ==> after.memory == Some(Memory(i.pending.value, None, false, false)))
  {
    if i.operation == Some(LogOutOperation) {
      var (after, o) := LogOut(w, i.pending, newAnonymous, Resume, io);
      assert ResumeTransition(w, i, newAnonymous, io) == (after, o);
      ResumedLogout(w, i.current, i.pending.value, newAnonymous, io);
    } else {
      assert i.operation.value.LogInOperation?;
      var (after, o) := LogIn(w, i.pending.value, Resume, io);
      assert ResumeTransition(w, i, newAnonymous, io) == (after, o);
      ResumedLogin(w, i.current, i.pending.value, io);
    }
  }

  lemma ResumedLogout(w: World, user: UserId, target: UserId, newAnonymous: UserId, io: IdentityIo)
    requires w.memory == Some(Memory(user, None, false, false)) && ValidAppUserId(user) && ValidAppUserId(target)
    ensures
      var (after, o) := LogOut(w, Some(target), newAnonymous, Resume, io);
      && (o.Done? <==> IsAnonymousId(target) && !IsAnonymousId(user) && io.call == Answered(true) && io.commit == Succeeds)
      && (o.Done? ==> after.memory == Some(Memory(target, None, false, false)))
  {
    TransitSucceedsExactly(w, w.memory.value, LogOutOperation, target, Resume, io);
  }

  lemma ResumedLogin(w: World, user: UserId, target: UserId, io: IdentityIo)
    requires w.memory == Some(Memory(user, None, false, false)) && ValidAppUserId(user) && ValidAppUserId(target)
    ensures
      var (after, o) := LogIn(w, target, Resume, io);
      && (o.Done? <==> if target == user then io.commit == Succeeds && io.refresh == Answered(true)
                       else io.call == Answered(true) && io.commit == Succeeds)
      && (o.Done? ==> after.memory == Some(Memory(target, None, false, false)))
  {
    if target != user { LoginSucceedsExactly(w, target, Resume, io); }
  }
}
