/**
 * What the two barriers amount to: under whom receipts are posted, what a sync can do to
 * them, and what stays shut while a transition or a recovery is pending.
 */
module PurchasesResults {
  import opened Options
  import opened IdentityModel
  import opened PurchasesModel
  import opened PurchasesTheorems

  // ---- Under whom a receipt is posted --------------------------------------------------

  /**
   * Main result 2. In every run of logins, logouts, purchases, syncs, restarts, crashes and
   * store events: every receipt of a purchase launched here goes under whoever the identity
   * changes and restarts since its launch lead to, and there were none unless the purchase
   * was deferred, already finished, or outlived its instance; every finish directly follows
   * the accepted post of the same token by the same user; the pending flag agrees with the
   * pending transition; and a pending transition never coincides with a required recovery.
   */
  lemma ReceiptsFollowIdentity(file: IdentityFile, queued: seq<Token>, finished: seq<Token>, ops: seq<Op>)
    requires forall op :: op in ops ==> Legal(op)
    ensures var w := Run(FirstStart(file, queued, finished), ops);
            && (forall k :: 0 <= k < |w.log| ==> PostOk(w.log, k) && FinishOk(w.log, k))
            && (w.memory.Some? ==> BarriersOk(w.memory.value))
            && StoreOk(w.store, w.log, w.memory)
  {
    FirstStartOk(file, queued, finished);
    InvAlong(FirstStart(file, queued, finished), ops);
    var log := Run(FirstStart(file, queued, finished), ops).log;
    forall k | 0 <= k < |log| ensures PostOk(log, k) && FinishOk(log, k) {
      assert EventOk(log, k);
    }
  }

  /** The receipt of a launched purchase goes under somebody else than its launcher. */
  predicate Misposted(e: Event) {
    e.Posted? && e.transaction.launch.Some? && e.user != e.transaction.launch.value.user
  }

  /** The last change of the user in the log from `at` on led away from `user`. */
  predicate LedAway(log: seq<Event>, at: nat, user: UserId) {
    exists j :: at <= j < |log| && LastSwitch(log, j) && NewUser(log[j]) != user
  }

  predicate LastSwitch(log: seq<Event>, j: nat)
    requires j < |log|
  {
    ChangesUser(log[j]) && NoSwitchSince(log, j + 1)
  }

  lemma {:induction false} UserAtEnd(log: seq<Event>, at: nat, start: UserId)
    requires at <= |log|
    ensures UserSince(log, at, start) != start <==> LedAway(log, at, start)
    ensures NoSwitchSince(log, at) ==> UserSince(log, at, start) == start
    ensures forall j :: at <= j < |log| && LastSwitch(log, j) ==> UserSince(log, at, start) == NewUser(log[j])
  {
    if at < |log| {
      var n := |log| - 1;
      var front := log[..n];
      UserAtEnd(front, at, start);
      if ChangesUser(log[n]) {
        assert LastSwitch(log, n);
      } else {
        assert forall j :: at <= j < n ==> front[j] == log[j];
        assert forall j :: at <= j < n ==> (LastSwitch(front, j) <==> LastSwitch(log, j));
      }
    }
  }

  /**
   * Main result 2, made exact. In every run, a receipt is posted under another user than its
   * launcher exactly when the last identity change or restart since the launch led away from
   * the launcher. That takes a transaction that is already finished, which only a full query
   * returns, a purchase the store deferred, or one that outlived the instance it was made in.
   */
  lemma MispostedExactly(file: IdentityFile, queued: seq<Token>, finished: seq<Token>, ops: seq<Op>, k: nat)
    requires forall op :: op in ops ==> Legal(op)
    requires var log := Run(FirstStart(file, queued, finished), ops).log;
             k < |log| && log[k].Posted? && log[k].transaction.launch.Some?
    ensures var log := Run(FirstStart(file, queued, finished), ops).log;
            var t, launch := log[k].transaction, log[k].transaction.launch.value;
            && launch.at < k && log[launch.at] == Launched(t.token, launch.user)
            && (Misposted(log[k]) <==> LedAway(log[..k], launch.at, launch.user))
            && (Misposted(log[k]) ==> t.finished || launch.deferred || EndedSince(log[..k], launch.at))
  {
    ReceiptsFollowIdentity(file, queued, finished, ops);
    var log := Run(FirstStart(file, queued, finished), ops).log;
    assert PostOk(log, k);
    var launch := log[k].transaction.launch.value;
    UserAtEnd(log[..k], launch.at, launch.user);
  }

  // ---- What one sync posts -------------------------------------------------------------

  /** The receipts posted in a stretch of the log. */
  function Posts(log: seq<Event>): seq<Event> {
    if log == [] then []
    else Posts(log[..|log| - 1]) + (if log[|log| - 1].Posted? then [log[|log| - 1]] else [])
  }

  lemma PostsSnoc(log: seq<Event>, e: Event)
    ensures Posts(log + [e]) == Posts(log) + (if e.Posted? then [e] else [])
  {
    assert (log + [e])[..|log|] == log;
  }

  /** The receipts posted from `before` to `after`. */
  function NewPosts(before: seq<Event>, after: seq<Event>): seq<Event> {
    Added(Posts(before), Posts(after))
  }

  function Added(before: seq<Event>, after: seq<Event>): seq<Event> {
    if |before| <= |after| then after[|before|..] else []
  }

  /** Posted under `user`: a prefix of these transactions, in order. */
  predicate PostsPrefix(posts: seq<Event>, user: UserId, ts: seq<Transaction>) {
    |posts| <= |ts| && forall i :: 0 <= i < |posts| ==> posts[i].Posted? && posts[i].user == user && posts[i].transaction == ts[i]
  }

  /** A list with an event, or without it. */
  function Maybe(happened: bool, e: Event): seq<Event> {
    if happened then [e] else []
  }

  lemma PostThenFinishLog(w: World, user: UserId, t: Transaction, io: PostIo)
    ensures var (after, o) := PostThenFinish(w, user, t, io);
            && after.log == w.log + Maybe(Reached(io.post), Posted(t, user, Accepts(io.post)))
                            + Maybe(ReplyOutcome(io.post).Done?, FinishRequested(t.token, user)) + Maybe(o.Died?, Ended)
            && (o.Done? ==> Reached(io.post))
  {
  }

  lemma PostsMaybe(log: seq<Event>, happened: bool, e: Event)
    ensures Posts(log + Maybe(happened, e)) == Posts(log) + Maybe(happened && e.Posted?, e)
  {
    if happened { PostsSnoc(log, e); } else { assert log + [] == log; }
  }

  lemma PostThenFinishPosts(w: World, user: UserId, t: Transaction, io: PostIo)
    ensures var (after, o) := PostThenFinish(w, user, t, io);
            && Posts(after.log) == Posts(w.log) + Maybe(Reached(io.post), Posted(t, user, Accepts(io.post)))
            && (o.Done? ==> Reached(io.post))
  {
    var post, ask := Posted(t, user, Accepts(io.post)), FinishRequested(t.token, user);
    var (after, o) := PostThenFinish(w, user, t, io);
    PostThenFinishLog(w, user, t, io);
    ThreeMore(w.log, post, Reached(io.post), ask, ReplyOutcome(io.post).Done?, Ended, o.Died?);
  }

  lemma ThreeMore(log: seq<Event>, a: Event, isA: bool, b: Event, isB: bool, c: Event, isC: bool)
    requires a.Posted? && !b.Posted? && !c.Posted?
    ensures Posts(log + Maybe(isA, a) + Maybe(isB, b) + Maybe(isC, c)) == Posts(log) + Maybe(isA, a)
  {
    PostsMaybe(log, isA, a);
    PostsMaybe(log + Maybe(isA, a), isB, b);
    PostsMaybe(log + Maybe(isA, a) + Maybe(isB, b), isC, c);
  }

  /** The loop adds to the posts a prefix of its list under one user, all of it when it gets through. */
  predicate LoopPosts(before: seq<Event>, after: seq<Event>, user: UserId, ts: seq<Transaction>, done: nat, o: Outcome) {
    && before <= after
    && PostsPrefix(Added(before, after), user, ts)
    && done <= |Added(before, after)| <= done + 1
    && (o.Done? ==> done == |ts|)
  }

  lemma LoopPostsOneMore(before: seq<Event>, middle: seq<Event>, user: UserId, ts: seq<Transaction>, t: Transaction, more: seq<Event>, o: Outcome)
    requires LoopPosts(before, middle, user, ts, |ts|, Done) && PostsPrefix(more, user, [t]) && (o.Done? ==> |more| == 1)
    ensures LoopPosts(before, middle + more, user, ts + [t], if o.Done? then |ts| + 1 else |ts|, o)
  {
    assert Added(before, middle + more) == Added(before, middle) + more;
  }

  lemma LastPosts(start: seq<Event>, before: World, user: UserId, front: seq<Transaction>, t: Transaction, io: PostIo)
    requires LoopPosts(start, Posts(before.log), user, front, |front|, Done)
    ensures var (after, o) := PostThenFinish(before, user, t, io);
            LoopPosts(start, Posts(after.log), user, front + [t], if o.Done? then |front| + 1 else |front|, o)
  {
    var o := PostThenFinish(before, user, t, io).1;
    PostThenFinishPosts(before, user, t, io);
    LoopPostsOneMore(start, Posts(before.log), user, front, t, Maybe(Reached(io.post), Posted(t, user, Accepts(io.post))), o);
  }

  lemma {:induction false} PostAllPosts(w: World, user: UserId, purchases: seq<Transaction>, io: seq<PostIo>)
    ensures var (after, done, o) := PostAll(w, user, purchases, io);
            LoopPosts(Posts(w.log), Posts(after.log), user, purchases, done, o)
  {
    if purchases != [] {
      var last := |purchases| - 1;
      var front, t := purchases[..last], purchases[last];
      PostAllPosts(w, user, front, io);
      var (before, done, o) := PostAll(w, user, front, io);
      if o.Done? {
        LastPosts(Posts(w.log), before, user, front, t, ReceiptIo(io, last));
        assert front + [t] == purchases;
      }
    }
  }

  /** A launched transaction whose launcher is not `user`. */
  predicate Stray(t: Transaction, user: UserId) {
    t.launch.Some? && t.launch.value.user != user
  }

  ghost predicate AnyStray(ts: seq<Transaction>, user: UserId) {
    exists t :: t in ts && Stray(t, user)
  }

  ghost predicate AnyMisposted(log: seq<Event>) {
    exists e :: e in log && Misposted(e)
  }

  lemma MispostedPosts(posts: seq<Event>, user: UserId, ts: seq<Transaction>)
    requires PostsPrefix(posts, user, ts)
    ensures AnyMisposted(posts) <==> AnyStray(ts[..|posts|], user)
  {
    forall e | e in posts && Misposted(e) ensures AnyStray(ts[..|posts|], user) {
      var i :| 0 <= i < |posts| && posts[i] == e;
      assert ts[..|posts|][i] == ts[i] && Stray(ts[i], user);
    }
    forall t | t in ts[..|posts|] && Stray(t, user) ensures AnyMisposted(posts) {
      var i :| 0 <= i < |posts| && ts[i] == t;
      assert posts[i] in posts && Misposted(posts[i]);
    }
  }

  lemma SyncPosts(w: World, mode: SyncMode, io: SyncIo)
    requires w.memory.Some? && !w.memory.value.transitionPending
    ensures
      var (after, o) := Sync(w, mode, io);
      && PostsPrefix(NewPosts(w.log, after.log), w.memory.value.user, Queried(w.store, mode))
      && (o.Done? ==> |NewPosts(w.log, after.log)| == |Queried(w.store, mode)|)
  {
    var user, purchases := w.memory.value.user, Queried(w.store, mode);
    PostsSnoc(w.log, Fetched(user));
    PostsSnoc(w.log, Ended);
    PostsSnoc(w.log + [Fetched(user)], Ended);
    if ReplyOutcome(io.query).Done? && purchases != [] {
      PostAllPosts(Posting(w, io), user, purchases, io.receipts);
    }
  }

  /**
   * Main result 3. A sync, however it ends, posts a prefix of what it queried under the
   * current user, and the whole of it when it succeeds. So it posts a receipt under another
   * user than its launcher exactly when that prefix holds a transaction launched by another
   * user. In the unfinished queue only purchases that were deferred or outlived their instance
   * can be such; the finished history is reached by full queries alone.
   */
  lemma SyncMispostsExactly(w: World, mode: SyncMode, io: SyncIo)
    requires Inv(w) && w.memory.Some? && !w.memory.value.transitionPending
    ensures
      var (after, o) := Sync(w, mode, io);
      var user, purchases, posts := w.memory.value.user, Queried(w.store, mode), NewPosts(w.log, after.log);
      && PostsPrefix(posts, user, purchases) && (o.Done? ==> |posts| == |purchases|)
      && (AnyMisposted(posts) <==> AnyStray(purchases[..|posts|], user))
    ensures forall t :: t in Queried(w.store, mode) && Stray(t, w.memory.value.user) ==>
                          if t.finished then !mode.PendingQueue? && t in w.store.history
                          else t in w.store.queue && (t.launch.value.deferred || EndedSince(w.log, t.launch.value.at))
  {
    SyncPosts(w, mode, io);
    MispostedPosts(NewPosts(w.log, Sync(w, mode, io).0.log), w.memory.value.user, Queried(w.store, mode));
    StraysAreFree(w);
  }

  lemma StraysAreFree(w: World)
    requires Inv(w) && w.memory.Some?
    ensures forall t :: t in w.store.queue && Stray(t, w.memory.value.user) ==>
                          !t.finished && (t.launch.value.deferred || EndedSince(w.log, t.launch.value.at))
  {
    forall t | t in w.store.queue && Stray(t, w.memory.value.user)
      ensures t.launch.value.deferred || EndedSince(w.log, t.launch.value.at)
    {
      assert LaunchOk(t, w.log, w.memory) && HeldOrFree(t.launch.value, w.log, w.memory);
      UserAtEnd(w.log, t.launch.value.at, t.launch.value.user);
    }
  }

  /** A purchase posts its own receipt at most, and under the user who launched it. */
  lemma PurchasePostsItsOwn(w: World, io: PurchaseIo)
    ensures var posts := NewPosts(w.log, Purchase(w, io).0.log);
            |posts| <= 1 && !AnyMisposted(posts) && forall e :: e in posts ==> e.Posted? && e.transaction.token == io.token && e.transaction.launch.Some?
  {
    if w.memory.Some? && ReceiptOperationsReady(w.memory.value) && io.inputAccepted {
      var m := w.memory.value.(recoveryRequired := true);
      var launched := Transaction(io.token, Some(Launch(m.user, |w.log|, Left(io.store).Deferred?)), false);
      var armed := Record(Update(w, m), true, Launched(io.token, m.user));
      var stored := armed.(store := Leave(armed.store, launched, Left(io.store)));
      PostsSnoc(w.log, Launched(io.token, m.user));
      PostsSnoc(w.log + [Launched(io.token, m.user)], Ended);
      PostThenFinishPosts(stored, m.user, launched, io.receipt);
    }
  }

  /** A failed sync arms the recovery, except an explicit restore that never got a purchase to post. */
  lemma FailedSyncStaysArmed(w: World, mode: SyncMode, io: SyncIo)
    requires Inv(w) && w.memory.Some? && !w.memory.value.transitionPending
    requires Sync(w, mode, io).1.Failed?
    ensures var found := ReplyOutcome(io.query).Done? && Queried(w.store, mode) != [];
            Sync(w, mode, io).0.memory == Some(w.memory.value.(
              recoveryRequired := w.memory.value.recoveryRequired || !mode.ExplicitRestore? || found))
  {
    if ReplyOutcome(io.query).Done? && Queried(w.store, mode) != [] {
      ArmKeeps(w, mode, io);
      SyncFinishesPrefix(Posting(w, io), w.memory.value.user, Queried(w.store, mode), io.receipts);
    }
  }

  // ---- Runs in which no receipt changes hands ------------------------------------------

  /** No full query, and no purchase the store defers. */
  predicate Plain(op: Op) {
    && (op.Syncs? ==> op.mode.PendingQueue?)
    && (op.Purchases? ==> !Left(op.purchase.store).Deferred?)
  }

  predicate NotDeferred(t: Transaction) {
    t.launch.Some? ==> !t.launch.value.deferred
  }

  ghost predicate StorePlain(store: Store) {
    && (forall t :: t in store.queue ==> NotDeferred(t) && !t.finished)
    && (forall t :: t in store.awaiting ==> NotDeferred(t) && !t.finished)
  }

  ghost predicate PostsPlain(log: seq<Event>) {
    forall e :: e in log && e.Posted? ==> NotDeferred(e.transaction) && !e.transaction.finished
  }

  /** Nothing deferred is left with the store, and nothing deferred or finished was posted. */
  ghost predicate AllPlain(w: World) {
    StorePlain(w.store) && PostsPlain(w.log)
  }

  lemma StopPlain(w: World, o: Outcome)
    requires AllPlain(w)
    ensures AllPlain(Stop(w, o).0) && AllPlain(Abandon(w, o).0)
  {
  }

  lemma RecordPlain(w: World, happened: bool, e: Event)
    requires AllPlain(w) && !e.Posted?
    ensures AllPlain(Record(w, happened, e))
  {
  }

  lemma TransitPlain(w: World, m: Memory, kind: TransitionKind, target: UserId, host: Host, io: IdentityIo)
    requires AllPlain(w)
    ensures AllPlain(Transit(w, m, kind, target, host, io).0)
  {
    var marked := Mark(m, kind, target, host.Tracks());
    var (prepared, o1) := RunPrepare(Update(w, marked), host, m.user, target, kind, io.prepare);
    StopPlain(prepared, o1);
    var called := Call(prepared, kind, m.user, target, io.call);
    RecordPlain(prepared, Reached(io.call),
                if kind.LogInOperation? then Identified(m.user, target, prepared.file, Accepts(io.call)) else Fetched(target));
    StopPlain(called, ReplyOutcome(io.call));
    var (committed, o3) := RunCommit(called, host, target, io.commit);
    StopPlain(committed, o3);
    RecordPlain(Update(committed, Clear(marked.(user := target), host.Tracks())), true, Switched(m.user, target));
  }

  lemma LogInPlain(w: World, target: UserId, host: Host, io: IdentityIo)
    requires AllPlain(w)
    ensures AllPlain(LogIn(w, target, host, io).0)
  {
    if w.memory.Some? { TransitPlain(w, w.memory.value, LogInOperation, target, host, io); }
  }

  lemma LogOutPlain(w: World, resumed: Option<UserId>, newAnonymous: UserId, host: Host, io: IdentityIo)
    requires AllPlain(w)
    ensures AllPlain(LogOut(w, resumed, newAnonymous, host, io).0)
  {
    if w.memory.Some? {
      TransitPlain(w, w.memory.value, LogOutOperation, LogOutTarget(w.memory.value, resumed, newAnonymous, host.Tracks()), host, io);
    }
  }

  lemma ConfigurePlain(w: World, explicitId: Option<UserId>, newAnonymous: UserId, io: ConfigureIo)
    requires AllPlain(w)
    ensures AllPlain(Configure(w, explicitId, newAnonymous, io).0)
  {
    if w.memory.None? && Load(w.file).Loaded? {
      var persisted := Load(w.file).identity;
      var explicitUser := if explicitId.Some? && explicitId.value != "" then explicitId else None;
      var initial := ResolveInitialIdentity(explicitUser, persisted, newAnonymous);
      if initial.Initial? && io.setupSucceeds {
        var started := Begin(w, NewInstance(initial.user, newAnonymous));
        RecordPlain(w, true, Began(started.memory.value.user));
        if initial.shouldResumePending && persisted.Some? {
          ResumePlain(started, persisted.value, newAnonymous, io.identity);
          var (resumed, o) := ResumeTransition(started, persisted.value, newAnonymous, io.identity);
          SettlePlain(resumed, o, io.settle);
        } else {
          SettlePlain(started, Done, io.settle);
        }
      }
    }
  }

  lemma ResumePlain(w: World, identity: PersistedIdentity, newAnonymous: UserId, io: IdentityIo)
    requires AllPlain(w)
    ensures AllPlain(ResumeTransition(w, identity, newAnonymous, io).0)
  {
    if identity.pending.Some? {
      LogInPlain(w, identity.pending.value, Resume, io);
      LogOutPlain(w, identity.pending, newAnonymous, Resume, io);
    }
  }

  lemma SettlePlain(resumed: World, o: Outcome, settle: DiskWrite)
    requires AllPlain(resumed)
    ensures AllPlain(Abandon(resumed, o).0)
    ensures resumed.memory.Some? ==>
              var (file, o2) := Persist(resumed.file, Settled(resumed.memory.value.user), settle);
              AllPlain(resumed.(file := file)) && AllPlain(Abandon(resumed.(file := file), o2).0)
  {
    StopPlain(resumed, o);
    if resumed.memory.Some? {
      var (file, o2) := Persist(resumed.file, Settled(resumed.memory.value.user), settle);
      StopPlain(resumed.(file := file), o2);
    }
  }

  lemma PostThenFinishPlain(w: World, user: UserId, t: Transaction, io: PostIo)
    requires AllPlain(w) && NotDeferred(t) && !t.finished
    ensures AllPlain(PostThenFinish(w, user, t, io).0)
  {
  }

  lemma {:induction false} PostAllPlain(w: World, user: UserId, purchases: seq<Transaction>, io: seq<PostIo>)
    requires AllPlain(w) && forall t :: t in purchases ==> NotDeferred(t) && !t.finished
    ensures AllPlain(PostAll(w, user, purchases, io).0)
  {
    if purchases != [] {
      var front, t := purchases[..|purchases| - 1], purchases[|purchases| - 1];
      PostAllPlain(w, user, front, io);
      PostThenFinishPlain(PostAll(w, user, front, io).0, user, t, ReceiptIo(io, |front|));
    }
  }

  lemma PurchasePlain(w: World, io: PurchaseIo)
    requires AllPlain(w) && Plain(Purchases(io))
    ensures AllPlain(Purchase(w, io).0)
  {
    if w.memory.Some? {
      var m := w.memory.value.(recoveryRequired := true);
      var launched := Transaction(io.token, Some(Launch(m.user, |w.log|, false)), false);
      var armed := Record(Update(w, m), true, Launched(io.token, m.user));
      var stored := armed.(store := Leave(armed.store, launched, Left(io.store)));
      assert AllPlain(stored);
      PostThenFinishPlain(stored, m.user, launched, io.receipt);
    }
  }

  lemma SyncPlain(w: World, io: SyncIo)
    requires AllPlain(w)
    ensures AllPlain(Sync(w, PendingQueue, io).0)
  {
    if w.memory.Some? {
      assert AllPlain(Posting(w, io));
      PostAllPlain(Posting(w, io), w.memory.value.user, w.store.queue, io.receipts);
    }
  }

  lemma StepPlain(w: World, op: Op)
    requires AllPlain(w) && Plain(op)
    ensures AllPlain(Next(w, op))
  {
    match op
    case LibraryLogIn(target, io) => LogInPlain(w, target, Library, io);
    case LibraryLogOut(id, io) => LogOutPlain(w, None, id, Library, io);
    case CommandLogIn(_, target, io) => LogInPlain(w, target, Command, io);
    case CommandLogOut(loaded, id, io) =>
      LogOutPlain(w, None, id, Command, io);
      if loaded.Loaded? && loaded.identity.Some? {
        LogOutPlain(w, loaded.identity.value.pending, id, Resume, io);
      }
    case Configures(explicitId, id, io) => ConfigurePlain(w, explicitId, id, io);
    case Purchases(io) => PurchasePlain(w, io);
    case Syncs(_, io) => SyncPlain(w, io);
    case _ =>
  }

  lemma {:induction false} RunPlain(w: World, ops: seq<Op>)
    requires AllPlain(w) && forall op :: op in ops ==> Plain(op)
    ensures AllPlain(Run(w, ops))
  {
    if ops != [] {
      assert Plain(ops[|ops| - 1]);
      RunPlain(w, ops[..|ops| - 1]);
      StepPlain(Run(w, ops[..|ops| - 1]), ops[|ops| - 1]);
    }
  }

  /**
   * Main result 2, for the caller. While syncs query the unfinished queue alone and the store
   * defers no purchase, every receipt goes under its launcher for as long as the instance that
   * launched it lives, through logins, logouts and failures. None of the three conditions can
   * be dropped, as the next runs show.
   */
  lemma ReceiptsBelongToLauncher(file: IdentityFile, queued: seq<Token>, finished: seq<Token>, ops: seq<Op>)
    requires forall op :: op in ops ==> Legal(op) && Plain(op)
    ensures var log := Run(FirstStart(file, queued, finished), ops).log;
            forall k :: 0 <= k < |log| && Misposted(log[k]) ==> EndedSince(log[..k], log[k].transaction.launch.value.at)
  {
    var w0 := FirstStart(file, queued, finished);
    RunPlain(w0, ops);
    var log := Run(w0, ops).log;
    forall k | 0 <= k < |log| && Misposted(log[k]) ensures EndedSince(log[..k], log[k].transaction.launch.value.at) {
      MispostedExactly(file, queued, finished, ops, k);
      assert log[k] in log;
    }
  }

  // ---- Three runs in which a receipt changes hands ---------------------------------------

  lemma RunSnoc(w: World, ops: seq<Op>, op: Op)
    ensures Run(w, ops + [op]) == Next(Run(w, ops), op)
  {
    assert (ops + [op])[..|ops|] == ops;
  }

  const WELL := IdentityIo(Succeeds, Answered(true), Succeeds, Answered(true))

  function LogsIn(current: UserId, target: UserId): Op {
    CommandLogIn(Loaded(Some(Settled(current))), target, WELL)
  }

  function Starts(user: UserId, newAnonymous: UserId): Op {
    Configures(Some(user), newAnonymous, ConfigureIo(true, WELL, Succeeds))
  }

  const QUERIES := SyncIo(Answered(true), [], Answered(true), [])

  /** `a` buys and everything goes through; `b` logs in and restores. */
  function RestoreRun(a: UserId, b: UserId, newAnonymous: UserId, token: Token, mode: SyncMode): seq<Op> {
    [Starts(a, newAnonymous)]
    + [Purchases(PurchaseIo(true, token, Returns, PostIo(Answered(true), Finishes), false))]
    + [LogsIn(a, b)]
    + [Syncs(mode, QUERIES)]
  }

  lemma Started(a: UserId, newAnonymous: UserId)
    requires ValidAppUserId(a)
    ensures Run(FirstStart(Missing, [], []), [Starts(a, newAnonymous)])
            == World(Current(Settled(a)), Some(Memory(a, None, false, false)), Store([], [], []), [Began(a)])
  {
    var w := FirstStart(Missing, [], []);
    RunSnoc(w, [], Starts(a, newAnonymous));
    assert [] + [Starts(a, newAnonymous)] == [Starts(a, newAnonymous)];
    assert Utf8Length("") == 0 && IsBlank("");
  }

  lemma LoggedIn(w: World, a: UserId, b: UserId)
    requires w.memory == Some(Memory(a, None, false, false)) && a != b && ValidAppUserId(a) && ValidAppUserId(b)
    ensures
      var after := Next(w, LogsIn(a, b));
      && after.memory == Some(Memory(b, None, false, false)) && after.store == w.store
      && w.log <= after.log && |after.log| == |w.log| + 2 && after.log[|w.log| + 1] == Switched(a, b)
      && after.log[|w.log|].Identified?
  {
  }

  /**
   * A full query returns purchases that are long finished, so without any failure a restore
   * after a change of user posts the first user's receipt under the second.
   */
  lemma FullSyncsChangeHands(a: UserId, b: UserId, newAnonymous: UserId, token: Token, mode: SyncMode)
    requires ValidAppUserId(a) && ValidAppUserId(b) && a != b && IsAnonymousId(newAnonymous) && !mode.PendingQueue?
    ensures forall op :: op in RestoreRun(a, b, newAnonymous, token, mode) ==> Legal(op)
    ensures var w := Run(FirstStart(Missing, [], []), RestoreRun(a, b, newAnonymous, token, mode));
            && w.memory == Some(Memory(b, None, false, false))
            && Posted(Transaction(token, Some(Launch(a, 1, false)), true), b, true) in w.log
  {
    var w0, ops := FirstStart(Missing, [], []), RestoreRun(a, b, newAnonymous, token, mode);
    BoughtAndLeft(a, b, newAnonymous, token, mode);
    assert ops == ops[..3] + [Syncs(mode, QUERIES)];
    RunSnoc(w0, ops[..3], Syncs(mode, QUERIES));
    PostsOne(Run(w0, ops[..3]), b, mode, Transaction(token, Some(Launch(a, 1, false)), true));
  }

  lemma BoughtAndLeft(a: UserId, b: UserId, newAnonymous: UserId, token: Token, mode: SyncMode)
    requires ValidAppUserId(a) && ValidAppUserId(b) && a != b
    ensures var w := Run(FirstStart(Missing, [], []), RestoreRun(a, b, newAnonymous, token, mode)[..3]);
            && w.memory == Some(Memory(b, None, false, false))
            && w.store == Store([], [Transaction(token, Some(Launch(a, 1, false)), true)], [])
  {
    var w0, ops := FirstStart(Missing, [], []), RestoreRun(a, b, newAnonymous, token, mode);
    assert ops[..1] == [Starts(a, newAnonymous)];
    assert ops[..2] == ops[..1] + [ops[1]] && ops[..3] == ops[..2] + [ops[2]];
    Started(a, newAnonymous);
    RunSnoc(w0, ops[..1], ops[1]);
    RunSnoc(w0, ops[..2], ops[2]);
    Bought(Run(w0, ops[..1]), a, token);
    LoggedIn(Run(w0, ops[..2]), a, b);
  }

  lemma Bought(w: World, a: UserId, token: Token)
    requires w == World(Current(Settled(a)), Some(Memory(a, None, false, false)), Store([], [], []), [Began(a)])
    ensures var after := Next(w, Purchases(PurchaseIo(true, token, Returns, PostIo(Answered(true), Finishes), false)));
            && after.memory == w.memory
            && after.store == Store([], [Transaction(token, Some(Launch(a, 1, false)), true)], [])
  {
    var t := Transaction(token, Some(Launch(a, 1, false)), false);
    assert WithToken([t][1..], token) == [] && WithoutToken([t][1..], token) == [];
    assert WithToken([t], token) == [t] && WithoutToken([t], token) == [];
    assert [] + [t] == [t];
    assert MarkFinished([t]) == [t.(finished := true)];
  }

  /** A sync that finds just `t` posts it under the current user. */
  lemma PostsOne(w: World, user: UserId, mode: SyncMode, t: Transaction)
    requires w.memory == Some(Memory(user, None, false, false)) && Queried(w.store, mode) == [t]
    ensures var after := Sync(w, mode, QUERIES).0;
            && after.memory == w.memory && w.log <= after.log
            && Posted(t, user, true) in after.log
  {
    var posting := Posting(w, QUERIES);
    assert [t][..0] == [];
    assert PostAll(posting, user, [t][..0], []) == (posting, 0, Done);
    var (after, o) := PostThenFinish(posting, user, t, ReceiptIo([], 0));
    assert PostAll(posting, user, [t], []) == (after, 1, Done);
  }

  /**
   * `a`'s purchase is deferred; a sync finds the queue empty and ends the recovery; `b` logs in; the
   * purchase is approved, and the next sync posts it.
   */
  function DeferredRun(a: UserId, b: UserId, newAnonymous: UserId, token: Token): seq<Op> {
    [Starts(a, newAnonymous)]
    + [Purchases(PurchaseIo(true, token, Errs(Deferred), PostIo(Answered(true), Finishes), false))]
    + [Syncs(PendingQueue, QUERIES)]
    + [LogsIn(a, b)]
    + [Approves(token)]
    + [Syncs(PendingQueue, QUERIES)]
  }

  /** The recovery that a deferred purchase arms does not last until the purchase is decided. */
  lemma DeferredPurchasesChangeHands(a: UserId, b: UserId, newAnonymous: UserId, token: Token)
    requires ValidAppUserId(a) && ValidAppUserId(b) && a != b && IsAnonymousId(newAnonymous)
    ensures forall op :: op in DeferredRun(a, b, newAnonymous, token) ==> Legal(op)
    ensures var w := Run(FirstStart(Missing, [], []), DeferredRun(a, b, newAnonymous, token));
            && w.memory == Some(Memory(b, None, false, false))
            && Posted(Transaction(token, Some(Launch(a, 1, true)), false), b, true) in w.log
  {
    var w0 := FirstStart(Missing, [], []);
    var ops := DeferredRun(a, b, newAnonymous, token);
    var t := Transaction(token, Some(Launch(a, 1, true)), false);
    FirstHalf(a, b, newAnonymous, token);
    assert ops[..5] == ops[..4] + [Approves(token)] && ops == ops[..5] + [Syncs(PendingQueue, QUERIES)];
    RunSnoc(w0, ops[..4], Approves(token));
    RunSnoc(w0, ops[..5], Syncs(PendingQueue, QUERIES));
    Approved(Run(w0, ops[..4]), t);
    PostsOne(Run(w0, ops[..5]), b, PendingQueue, t);
  }

  lemma FirstHalf(a: UserId, b: UserId, newAnonymous: UserId, token: Token)
    requires ValidAppUserId(a) && ValidAppUserId(b) && a != b
    ensures var w := Run(FirstStart(Missing, [], []), DeferredRun(a, b, newAnonymous, token)[..4]);
            && w.memory == Some(Memory(b, None, false, false))
            && w.store == Store([], [], [Transaction(token, Some(Launch(a, 1, true)), false)])
  {
    var w0 := FirstStart(Missing, [], []);
    var ops := DeferredRun(a, b, newAnonymous, token);
    assert ops[..1] == [Starts(a, newAnonymous)];
    assert ops[..2] == ops[..1] + [ops[1]] && ops[..3] == ops[..2] + [ops[2]] && ops[..4] == ops[..3] + [ops[3]];
    Started(a, newAnonymous);
    RunSnoc(w0, ops[..1], ops[1]);
    RunSnoc(w0, ops[..2], ops[2]);
    RunSnoc(w0, ops[..3], ops[3]);
    DeferredThenSynced(Run(w0, ops[..1]), a, token);
    LoggedIn(Run(w0, ops[..3]), a, b);
  }

  lemma DeferredThenSynced(w: World, a: UserId, token: Token)
    requires w == World(Current(Settled(a)), Some(Memory(a, None, false, false)), Store([], [], []), [Began(a)])
    ensures var bought := Next(w, Purchases(PurchaseIo(true, token, Errs(Deferred), PostIo(Answered(true), Finishes), false)));
            var after := Next(bought, Syncs(PendingQueue, QUERIES));
            && bought.memory == Some(Memory(a, None, false, true))
            && after.memory == w.memory && after.store == Store([], [], [Transaction(token, Some(Launch(a, 1, true)), false)])
  {
    assert Delivered([]) == [];
  }

  lemma Approved(w: World, t: Transaction)
    requires w.store == Store([], [], [t])
    ensures Next(w, Approves(t.token)) == w.(store := Store([t], [], []))
  {
    assert WithToken([t][1..], t.token) == [] && WithoutToken([t][1..], t.token) == [];
    assert WithToken([t], t.token) == [t] && WithoutToken([t], t.token) == [];
    assert [] + [t] == [t];
  }

  /** The process dies with `a`'s purchase made and not posted; it restarts as `a`, and `b` logs in. */
  function DyingRun(a: UserId, b: UserId, newAnonymous: UserId, token: Token): seq<Op> {
    [Starts(a, newAnonymous)]
    + [Purchases(PurchaseIo(true, token, DiesAt(Created), PostIo(Answered(true), Finishes), false))]
    + [Configures(None, newAnonymous, ConfigureIo(true, WELL, Succeeds))]
    + [LogsIn(a, b)]
    + [Syncs(PendingQueue, QUERIES)]
  }

  /** The recovery is kept in memory, so a login right after the restart gets past it. */
  lemma DeathsChangeHands(a: UserId, b: UserId, newAnonymous: UserId, token: Token)
    requires ValidAppUserId(a) && ValidAppUserId(b) && a != b && IsAnonymousId(newAnonymous)
    ensures forall op :: op in DyingRun(a, b, newAnonymous, token) ==> Legal(op)
    ensures var w := Run(FirstStart(Missing, [], []), DyingRun(a, b, newAnonymous, token));
            && w.memory == Some(Memory(b, None, false, false))
            && Posted(Transaction(token, Some(Launch(a, 1, false)), false), b, true) in w.log
  {
    var w0, ops := FirstStart(Missing, [], []), DyingRun(a, b, newAnonymous, token);
    DiedAndLeft(a, b, newAnonymous, token);
    assert ops == ops[..4] + [Syncs(PendingQueue, QUERIES)];
    RunSnoc(w0, ops[..4], Syncs(PendingQueue, QUERIES));
    PostsOne(Run(w0, ops[..4]), b, PendingQueue, Transaction(token, Some(Launch(a, 1, false)), false));
  }

  lemma DiedAndLeft(a: UserId, b: UserId, newAnonymous: UserId, token: Token)
    requires ValidAppUserId(a) && ValidAppUserId(b) && a != b
    ensures var w := Run(FirstStart(Missing, [], []), DyingRun(a, b, newAnonymous, token)[..4]);
            && w.memory == Some(Memory(b, None, false, false))
            && w.store == Store([Transaction(token, Some(Launch(a, 1, false)), false)], [], [])
  {
    var w0, ops := FirstStart(Missing, [], []), DyingRun(a, b, newAnonymous, token);
    assert ops[..1] == [Starts(a, newAnonymous)];
    assert ops[..2] == ops[..1] + [ops[1]] && ops[..3] == ops[..2] + [ops[2]] && ops[..4] == ops[..3] + [ops[3]];
    Started(a, newAnonymous);
    RunSnoc(w0, ops[..1], ops[1]);
    RunSnoc(w0, ops[..2], ops[2]);
    RunSnoc(w0, ops[..3], ops[3]);
    DiesThenRestarts(Run(w0, ops[..1]), a, newAnonymous, token);
    LoggedIn(Run(w0, ops[..3]), a, b);
  }

  lemma DiesThenRestarts(w: World, a: UserId, newAnonymous: UserId, token: Token)
    requires w == World(Current(Settled(a)), Some(Memory(a, None, false, false)), Store([], [], []), [Began(a)]) && ValidAppUserId(a)
    ensures var died := Next(w, Purchases(PurchaseIo(true, token, DiesAt(Created), PostIo(Answered(true), Finishes), false)));
            var after := Next(died, Configures(None, newAnonymous, ConfigureIo(true, WELL, Succeeds)));
            && died.memory.None? && after.memory == w.memory
            && after.store == Store([Transaction(token, Some(Launch(a, 1, false)), false)], [], [])
  {
    var t := Transaction(token, Some(Launch(a, 1, false)), false);
    assert [] + [t] == [t];
    assert !IsBlank(a);
  }

  // ---- While a transition is pending ---------------------------------------------------

  /** The command that carries on with exactly this transition and passes its check of the file. */
  predicate Retries(op: Op, t: Transition) {
    match op
    case CommandLogIn(loaded, target, _) =>
      t == Transition(LogInOperation, target) && loaded.Loaded? && !ConflictsWith(loaded, LogInOperation, Some(target))
    case CommandLogOut(loaded, _, _) =>
      && t.kind.LogOutOperation? && loaded.Loaded? && !ConflictsWith(loaded, LogOutOperation, None)
      && (loaded.identity.Some? && loaded.identity.value.pending.Some? ==> loaded.identity.value.pending.value == t.target)
    case _ => false
  }

  /** Nothing but the store's own affairs has moved, and no unfinished transaction is gone. */
  predicate Untouched(w: World, after: World) {
    after == w.(store := after.store) && w.store.queue <= after.store.queue
  }

  lemma RefusedStep(w: World, op: Op)
    requires w.memory.Some? && BarriersOk(w.memory.value) && w.memory.value.pending.Some?
    requires !Retries(op, w.memory.value.pending.value) && !op.Crashes?
    ensures Untouched(w, Next(w, op))
  {
  }

  /**
   * Main result 4. Once a transition is pending, nothing but its own tracked retry or the end
   * of the process touches anything: along every run without those, the identity file, the
   * user, both barriers and the log (every request, post and finish) stay exactly as they
   * are, and the queue only grows.
   */
  lemma {:induction false} BlockedUntilRetried(w: World, ops: seq<Op>)
    requires Inv(w) && w.memory.Some? && w.memory.value.pending.Some?
    requires forall op :: op in ops ==> !Retries(op, w.memory.value.pending.value) && !op.Crashes?
    ensures Untouched(w, Run(w, ops)) && !ReceiptOperationsReady(w.memory.value)
  {
    if ops != [] {
      var front, op := ops[..|ops| - 1], ops[|ops| - 1];
      BlockedUntilRetried(w, front);
      assert op in ops;
      RefusedStep(Run(w, front), op);
    }
  }

  // ---- While a recovery is required ----------------------------------------------------

  predicate ReceiptOf(e: Event, user: UserId) {
    match e
    case Posted(_, u, _) => u == user
    case FinishRequested(_, u) => u == user
    case Fetched(u) => u == user
    case _ => false
  }

  /** Memory is as it was, and only receipts of the one user joined the log. */
  predicate Held(w: World, after: World)
    requires w.memory.Some?
  {
    && after.memory == w.memory && w.log <= after.log
    && forall k :: |w.log| <= k < |after.log| ==> ReceiptOf(after.log[k], w.memory.value.user)
  }

  /** The process lives on, and no sync goes through. */
  ghost predicate Unrecovered(w: World, ops: seq<Op>) {
    ops != [] ==>
      var before, op := Run(w, ops[..|ops| - 1]), ops[|ops| - 1];
      && Unrecovered(w, ops[..|ops| - 1]) && Next(before, op).memory.Some?
      && (op.Syncs? ==> !Sync(before, op.mode, op.sync).1.Done?)
  }

  lemma {:induction false} PostAllHeld(w: World, user: UserId, purchases: seq<Transaction>, io: seq<PostIo>)
    requires w.memory.Some? && w.memory.value.user == user
    ensures var (after, _, o) := PostAll(w, user, purchases, io); o.Died? || Held(w, after)
  {
    if purchases != [] {
      var front := purchases[..|purchases| - 1];
      PostAllHeld(w, user, front, io);
      var (before, _, o) := PostAll(w, user, front, io);
      if o.Done? { PostThenFinishHeld(before, user, purchases[|purchases| - 1], ReceiptIo(io, |front|)); }
    }
  }

  lemma PostThenFinishHeld(w: World, user: UserId, t: Transaction, io: PostIo)
    requires w.memory.Some? && w.memory.value.user == user
    ensures var (after, o) := PostThenFinish(w, user, t, io); o.Died? || Held(w, after)
  {
  }

  lemma HeldStep(w: World, op: Op)
    requires Inv(w) && w.memory.Some? && w.memory.value.recoveryRequired && Next(w, op).memory.Some?
    requires op.Syncs? ==> !Sync(w, op.mode, op.sync).1.Done?
    ensures Held(w, Next(w, op))
  {
    if op.Syncs? {
      var user, purchases := w.memory.value.user, Queried(w.store, op.mode);
      assert Posting(w, op.sync).memory == w.memory;
      PostAllHeld(Posting(w, op.sync), user, purchases, op.sync.receipts);
      PostAllDies(Posting(w, op.sync), user, purchases, op.sync.receipts);
    }
  }

  lemma {:induction false} PostAllDies(w: World, user: UserId, purchases: seq<Transaction>, io: seq<PostIo>)
    ensures var (after, _, o) := PostAll(w, user, purchases, io); o.Died? ==> after.memory.None?
  {
    if purchases != [] {
      PostAllDies(w, user, purchases[..|purchases| - 1], io);
    }
  }

  /**
   * Main result 5. Once a recovery is required, only a sync that goes through (or the end of
   * the process) releases the user: along every other run memory stays exactly as it is, and
   * nothing happens but receipts and refreshes of that one user.
   */
  lemma {:induction false} HeldUntilRecovered(w: World, ops: seq<Op>)
    requires Inv(w) && w.memory.Some? && w.memory.value.recoveryRequired
    requires (forall op :: op in ops ==> Legal(op)) && Unrecovered(w, ops)
    ensures Held(w, Run(w, ops))
  {
    if ops != [] {
      var front, op := ops[..|ops| - 1], ops[|ops| - 1];
      HeldUntilRecovered(w, front);
      InvAlong(w, front);
      HeldStep(Run(w, front), op);
    }
  }
}
