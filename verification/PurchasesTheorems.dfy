/**
 * The two barriers of the facade over whole runs: identity transitions and receipt recovery.
 */
module PurchasesTheorems {
  import opened Options
  import opened IdentityModel
  import opened PurchasesModel

  datatype Op =
    | LibraryLogIn(target: UserId, identity: IdentityIo)
    | LibraryLogOut(newAnonymous: UserId, identity: IdentityIo)
    | CommandLogIn(loaded: Loaded, target: UserId, identity: IdentityIo)
    | CommandLogOut(loaded: Loaded, newAnonymous: UserId, identity: IdentityIo)
    | Configures(explicitId: Option<UserId>, newAnonymous: UserId, setup: ConfigureIo)
    | Purchases(purchase: PurchaseIo)
    | Syncs(mode: SyncMode, sync: SyncIo)
    | Delivers(token: Token)  // the store queues a transaction that was not launched here
    | Uncovers(token: Token)  // full queries begin to report one finished elsewhere
    | Approves(token: Token)  // a deferred purchase goes through
    | Declines(token: Token)  // a deferred purchase does not
    | Expires(token: Token)   // full queries stop reporting a finished transaction
    | Crashes

  /** Generated ids are anonymous ids. */
  predicate Legal(op: Op) {
    match op
    case LibraryLogOut(id, _) => IsAnonymousId(id)
    case CommandLogOut(_, id, _) => IsAnonymousId(id)
    case Configures(_, id, _) => IsAnonymousId(id)
    case _ => true
  }

  /** What the store does by itself. */
  predicate StoreOnly(op: Op) {
    op.Delivers? || op.Uncovers? || op.Approves? || op.Declines? || op.Expires?
  }

  function StoreNext(store: Store, op: Op): Store
    requires StoreOnly(op)
  {
    match op
    case Delivers(token) => store.(queue := store.queue + [Transaction(token, None, false)])
    case Uncovers(token) => store.(history := store.history + [Transaction(token, None, true)])
    case Approves(token) => ApproveIn(store, token)
    case Declines(token) => store.(awaiting := WithoutToken(store.awaiting, token))
    case Expires(token) => store.(history := WithoutToken(store.history, token))
  }

  function Next(w: World, op: Op): World {
    match op
    case LibraryLogIn(target, io) => LogIn(w, target, Library, io).0
    case LibraryLogOut(id, io) => LogOut(w, None, id, Library, io).0
    case CommandLogIn(loaded, target, io) => LogInCommand(w, loaded, target, io).0
    case CommandLogOut(loaded, id, io) => LogOutCommand(w, loaded, id, io).0
    case Configures(explicitId, id, io) => Configure(w, explicitId, id, io).0
    case Purchases(io) => Purchase(w, io).0
    case Syncs(mode, io) => Sync(w, mode, io).0
    case Crashes => Die(w)
    case _ => w.(store := StoreNext(w.store, op))
  }

  function Run(w: World, ops: seq<Op>): World {
    if ops == [] then w else Next(Run(w, ops[..|ops| - 1]), ops[|ops| - 1])
  }

  // ---- The barriers --------------------------------------------------------------------

  predicate BarriersOk(m: Memory) {
    && m.transitionPending == m.pending.Some?
    && !(m.pending.Some? && m.recoveryRequired)
    && (m.pending.Some? ==>
          && m.pending.value.target != m.user
          && ValidAppUserId(m.pending.value.target)
          && (m.pending.value.kind.LogOutOperation? ==> IsAnonymousId(m.pending.value.target) && !IsAnonymousId(m.user)))
  }

  // ---- The log -------------------------------------------------------------------------

  predicate ChangesUser(e: Event) {
    e.Switched? || e.Began?
  }

  function NewUser(e: Event): UserId
    requires ChangesUser(e)
  {
    if e.Switched? then e.target else e.user
  }

  /** Who is the user after the log, given that `start` was at index `at`. */
  function UserSince(log: seq<Event>, at: nat, start: UserId): UserId {
    if |log| <= at then start
    else
      var last := log[|log| - 1];
      if ChangesUser(last) then NewUser(last) else UserSince(log[..|log| - 1], at, start)
  }

  predicate NoSwitchSince(log: seq<Event>, at: nat) {
    forall j :: at <= j < |log| ==> !ChangesUser(log[j])
  }

  predicate EndedSince(log: seq<Event>, at: nat) {
    exists j :: at <= j < |log| && log[j].Ended?
  }

  /** The launch is where its transaction says, in the log before index `k`. */
  predicate Recorded(log: seq<Event>, k: nat, t: Transaction)
    requires k <= |log| && t.launch.Some?
  {
    t.launch.value.at < k && log[t.launch.value.at] == Launched(t.token, t.launch.value.user)
  }

  /**
   * A receipt of a launched purchase is posted under whoever the identity changes since its
   * launch lead to; and there were none if the purchase was neither deferred nor finished and
   * the instance has lived on.
   */
  predicate PostOk(log: seq<Event>, k: nat)
    requires k < |log|
  {
    log[k].Posted? && log[k].transaction.launch.Some? ==>
      var t, launch := log[k].transaction, log[k].transaction.launch.value;
      && Recorded(log, k, t)
      && log[k].user == UserSince(log[..k], launch.at, launch.user)
      && (!t.finished && !launch.deferred && !EndedSince(log[..k], launch.at) ==> NoSwitchSince(log[..k], launch.at))
  }

  /** The event right before a finish is the accepted post of the same token by the same user. */
  predicate FinishOk(log: seq<Event>, k: nat)
    requires k < |log|
  {
    log[k].FinishRequested? ==>
      && k > 0 && log[k - 1].Posted? && log[k - 1].accepted
      && log[k - 1].transaction.token == log[k].token && log[k - 1].user == log[k].user
  }

  predicate EventOk(log: seq<Event>, k: nat)
    requires k < |log|
  {
    PostOk(log, k) && FinishOk(log, k) && (log[k].Switched? ==> log[k].source != log[k].target)
  }

  ghost predicate LogOk(log: seq<Event>) {
    forall k :: 0 <= k < |log| ==> EventOk(log, k)
  }

  lemma LogAppend(log: seq<Event>, e: Event)
    requires LogOk(log) && EventOk(log + [e], |log|)
    ensures LogOk(log + [e])
  {
    forall k | 0 <= k < |log + [e]|
      ensures EventOk(log + [e], k)
    {
      if k < |log| {
        assert EventOk(log, k);
        assert (log + [e])[..k] == log[..k];
      }
    }
  }

  lemma PlainAppend(log: seq<Event>, e: Event)
    requires LogOk(log) && !e.Posted? && !e.FinishRequested? && !(e.Switched? && e.source == e.target)
    ensures LogOk(log + [e])
  {
    LogAppend(log, e);
  }

  lemma UserAppend(log: seq<Event>, e: Event, at: nat, start: UserId)
    requires at <= |log|
    ensures UserSince(log + [e], at, start) == if ChangesUser(e) then NewUser(e) else UserSince(log, at, start)
    ensures !ChangesUser(e) && NoSwitchSince(log, at) ==> NoSwitchSince(log + [e], at)
    ensures EndedSince(log + [e], at) <==> EndedSince(log, at) || e.Ended?
  {
    var longer := log + [e];
    assert longer[..|log|] == log;
    if e.Ended? { assert longer[|log|].Ended?; }
    if EndedSince(log, at) {
      var j :| at <= j < |log| && log[j].Ended?;
      assert longer[j].Ended?;
    }
  }

  // ---- The store -----------------------------------------------------------------------

  /** A launch, against the log and the memory. */
  predicate LaunchOk(t: Transaction, log: seq<Event>, memory: Option<Memory>)
    requires t.launch.Some?
  {
    && Recorded(log, |log|, t)
    && (memory.Some? ==> memory.value.user == UserSince(log, t.launch.value.at, t.launch.value.user))
  }

  ghost predicate LaunchesOk(ts: seq<Transaction>, log: seq<Event>, memory: Option<Memory>) {
    forall t :: t in ts && t.launch.Some? ==> LaunchOk(t, log, memory)
  }

  /** A purchase that was not deferred stays with its launcher until it is finished or the instance ends. */
  ghost predicate QueueHeld(queue: seq<Transaction>, log: seq<Event>, memory: Option<Memory>) {
    forall t :: t in queue && t.launch.Some? ==> HeldOrFree(t.launch.value, log, memory)
  }

  predicate HeldOrFree(launch: Launch, log: seq<Event>, memory: Option<Memory>) {
    || launch.deferred || EndedSince(log, launch.at)
    || (memory.Some? && memory.value.recoveryRequired && NoSwitchSince(log, launch.at))
  }

  ghost predicate StoreOk(store: Store, log: seq<Event>, memory: Option<Memory>) {
    && LaunchesOk(store.queue, log, memory) && LaunchesOk(store.history, log, memory) && LaunchesOk(store.awaiting, log, memory)
    && QueueHeld(store.queue, log, memory)
    && (forall t :: t in store.queue ==> !t.finished)
    && (forall t :: t in store.history ==> t.finished)
    && (forall t :: t in store.awaiting ==> !t.finished && (t.launch.Some? ==> t.launch.value.deferred))
  }

  ghost predicate Inv(w: World) {
    && (w.memory.Some? ==> BarriersOk(w.memory.value))
    && StoreOk(w.store, w.log, w.memory)
    && LogOk(w.log)
  }

  lemma LaunchesAppend(ts: seq<Transaction>, log: seq<Event>, memory: Option<Memory>, e: Event)
    requires LaunchesOk(ts, log, memory) && !ChangesUser(e)
    ensures LaunchesOk(ts, log + [e], memory)
  {
    forall t | t in ts && t.launch.Some? ensures LaunchOk(t, log + [e], memory) {
      assert LaunchOk(t, log, memory);
      UserAppend(log, e, t.launch.value.at, t.launch.value.user);
    }
  }

  lemma HeldAppend(queue: seq<Transaction>, log: seq<Event>, memory: Option<Memory>, e: Event)
    requires LaunchesOk(queue, log, memory) && QueueHeld(queue, log, memory) && !ChangesUser(e)
    ensures QueueHeld(queue, log + [e], memory)
  {
    forall t | t in queue && t.launch.Some? ensures HeldOrFree(t.launch.value, log + [e], memory) {
      assert LaunchOk(t, log, memory) && HeldOrFree(t.launch.value, log, memory);
      UserAppend(log, e, t.launch.value.at, t.launch.value.user);
    }
  }

  /** Any event that does not change the user leaves the store's relation to the log as it is. */
  lemma StoreAppend(store: Store, log: seq<Event>, memory: Option<Memory>, e: Event)
    requires StoreOk(store, log, memory) && !ChangesUser(e)
    ensures StoreOk(store, log + [e], memory)
  {
    LaunchesAppend(store.queue, log, memory, e);
    LaunchesAppend(store.history, log, memory, e);
    LaunchesAppend(store.awaiting, log, memory, e);
    HeldAppend(store.queue, log, memory, e);
  }

  lemma LaunchesSwitch(ts: seq<Transaction>, log: seq<Event>, memory: Option<Memory>, e: Event, next: Memory)
    requires LaunchesOk(ts, log, memory) && ChangesUser(e) && NewUser(e) == next.user
    ensures LaunchesOk(ts, log + [e], Some(next))
  {
    forall t | t in ts && t.launch.Some? ensures LaunchOk(t, log + [e], Some(next)) {
      assert LaunchOk(t, log, memory);
      UserAppend(log, e, t.launch.value.at, t.launch.value.user);
    }
  }

  /** The user changes only while nothing is held. */
  lemma StoreSwitch(store: Store, log: seq<Event>, memory: Option<Memory>, e: Event, next: Memory)
    requires StoreOk(store, log, memory) && (memory.Some? ==> !memory.value.recoveryRequired)
    requires ChangesUser(e) && NewUser(e) == next.user
    ensures StoreOk(store, log + [e], Some(next))
  {
    LaunchesSwitch(store.queue, log, memory, e, next);
    LaunchesSwitch(store.history, log, memory, e, next);
    LaunchesSwitch(store.awaiting, log, memory, e, next);
    forall t | t in store.queue && t.launch.Some? ensures HeldOrFree(t.launch.value, log + [e], Some(next)) {
      assert LaunchOk(t, log, memory) && HeldOrFree(t.launch.value, log, memory);
      UserAppend(log, e, t.launch.value.at, t.launch.value.user);
    }
  }

  /** Arming the recovery, or anything that concerns neither the user nor the recovery. */
  lemma StoreFlags(store: Store, log: seq<Event>, m: Memory, next: Memory)
    requires StoreOk(store, log, Some(m)) && next.user == m.user && (m.recoveryRequired ==> next.recoveryRequired)
    ensures StoreOk(store, log, Some(next))
  {
    forall t | t in store.queue + store.history + store.awaiting && t.launch.Some? ensures LaunchOk(t, log, Some(next)) {
      assert LaunchOk(t, log, Some(m));
    }
    forall t | t in store.queue && t.launch.Some? ensures HeldOrFree(t.launch.value, log, Some(next)) {
      assert HeldOrFree(t.launch.value, log, Some(m));
    }
  }

  lemma EndFrees(store: Store, log: seq<Event>, memory: Option<Memory>)
    requires StoreOk(store, log, memory)
    ensures StoreOk(store, log + [Ended], None)
  {
    StoreAppend(store, log, memory, Ended);
    forall t | t in store.queue + store.history + store.awaiting && t.launch.Some?
      ensures LaunchOk(t, log + [Ended], None) && HeldOrFree(t.launch.value, log + [Ended], None)
    {
      assert LaunchOk(t, log, memory) && LaunchOk(t, log + [Ended], memory);
      UserAppend(log, Ended, t.launch.value.at, t.launch.value.user);
    }
  }

  lemma DieKeeps(w: World)
    requires StoreOk(w.store, w.log, w.memory) && LogOk(w.log)
    ensures Inv(Die(w))
  {
    EndFrees(w.store, w.log, w.memory);
    PlainAppend(w.log, Ended);
  }

  // ---- Identity operations -------------------------------------------------------------

  /** A transition that may start. */
  predicate MayTransit(w: World, m: Memory, kind: TransitionKind, target: UserId, host: Host) {
    && w.memory == Some(m) && BarriersOk(m) && !m.recoveryRequired
    && target != m.user && ValidAppUserId(target)
    && (kind.LogOutOperation? ==> IsAnonymousId(target) && !IsAnonymousId(m.user))
    && TransitionAllowed(m, kind, target, host.Tracks())
  }

  lemma MarkKeeps(w: World, m: Memory, next: Memory)
    requires Inv(w) && w.memory == Some(m) && BarriersOk(next)
    requires next.user == m.user && next.recoveryRequired == m.recoveryRequired
    ensures Inv(Update(w, next))
  {
    StoreFlags(w.store, w.log, m, next);
  }

  lemma RecordKeeps(w: World, happened: bool, e: Event)
    requires Inv(w) && !ChangesUser(e) && !e.Posted? && !e.FinishRequested?
    ensures Inv(Record(w, happened, e))
  {
    PlainAppend(w.log, e);
    StoreAppend(w.store, w.log, w.memory, e);
  }

  lemma StopKeeps(w: World, o: Outcome)
    requires Inv(w)
    ensures Inv(Stop(w, o).0)
  {
    DieKeeps(w);
  }

  lemma TransitKeeps(w: World, m: Memory, kind: TransitionKind, target: UserId, host: Host, io: IdentityIo)
    requires Inv(w) && MayTransit(w, m, kind, target, host)
    ensures Inv(Transit(w, m, kind, target, host, io).0)
  {
    var marked := Mark(m, kind, target, host.Tracks());
    MarkKeeps(w, m, marked);
    var (prepared, o1) := RunPrepare(Update(w, marked), host, m.user, target, kind, io.prepare);
    assert Inv(prepared);
    StopKeeps(prepared, o1);
    if o1.Done? {
      var called := Call(prepared, kind, m.user, target, io.call);
      RecordKeeps(prepared, Reached(io.call),
                  if kind.LogInOperation? then Identified(m.user, target, prepared.file, Accepts(io.call)) else Fetched(target));
      StopKeeps(called, ReplyOutcome(io.call));
      TransitCommits(called, marked, kind, target, host, io);
    }
  }

  lemma TransitCommits(called: World, marked: Memory, kind: TransitionKind, target: UserId, host: Host, io: IdentityIo)
    requires Inv(called) && called.memory == Some(marked) && !marked.recoveryRequired && target != marked.user
    requires !host.Tracks() ==> marked.pending.None?
    ensures var (committed, o3) := RunCommit(called, host, target, io.commit);
            && Inv(Stop(committed, o3).0)
            && Inv(Record(Update(committed, Clear(marked.(user := target), host.Tracks())), true, Switched(marked.user, target)))
  {
    var (committed, o3) := RunCommit(called, host, target, io.commit);
    assert Inv(committed);
    StopKeeps(committed, o3);
    StoreSwitch(committed.store, committed.log, Some(marked), Switched(marked.user, target), Clear(marked.(user := target), host.Tracks()));
    PlainAppend(committed.log, Switched(marked.user, target));
  }

  lemma CommitKeeps(w: World, m: Memory, host: Host, io: IdentityIo)
    requires Inv(w) && w.memory == Some(m)
    ensures var (committed, o) := RunCommit(w, host, m.user, io.commit);
            && Inv(Stop(committed, o).0)
            && Inv(Stop(Update(committed, Clear(m, host.Tracks())), ReplyOutcome(io.refresh)).0)
  {
    var (committed, o) := RunCommit(w, host, m.user, io.commit);
    assert Inv(committed);
    StopKeeps(committed, o);
    MarkKeeps(committed, m, Clear(m, host.Tracks()));
    StopKeeps(Update(committed, Clear(m, host.Tracks())), ReplyOutcome(io.refresh));
  }

  lemma LogInKeeps(w: World, target: UserId, host: Host, io: IdentityIo)
    requires Inv(w)
    ensures Inv(LogIn(w, target, host, io).0)
  {
    if w.memory.Some? && ValidAppUserId(target) {
      var m := w.memory.value;
      if TransitionAllowed(m, LogInOperation, target, host.Tracks()) {
        if m.user == target {
          CommitKeeps(w, m, host, io);
        } else if !m.recoveryRequired {
          TransitKeeps(w, m, LogInOperation, target, host, io);
        }
      }
    }
  }

  lemma LogOutKeeps(w: World, resumed: Option<UserId>, newAnonymous: UserId, host: Host, io: IdentityIo)
    requires Inv(w) && IsAnonymousId(newAnonymous)
    ensures Inv(LogOut(w, resumed, newAnonymous, host, io).0)
  {
    if w.memory.Some? && (resumed.Some? ==> IsAnonymousId(resumed.value)) {
      var m := w.memory.value;
      var target := LogOutTarget(m, resumed, newAnonymous, host.Tracks());
      AnonymousIdsAreValid(target);
      if !IsAnonymousId(m.user) && !m.recoveryRequired && TransitionAllowed(m, LogOutOperation, target, host.Tracks()) {
        TransitKeeps(w, m, LogOutOperation, target, host, io);
      }
    }
  }

  lemma ResumeKeeps(w: World, identity: PersistedIdentity, newAnonymous: UserId, io: IdentityIo)
    requires Inv(w) && IsAnonymousId(newAnonymous)
    ensures Inv(ResumeTransition(w, identity, newAnonymous, io).0)
  {
    if identity.pending.Some? {
      LogOutKeeps(w, identity.pending, newAnonymous, Resume, io);
      LogInKeeps(w, identity.pending.value, Resume, io);
    }
  }

  lemma BeginKeeps(w: World, user: UserId, newAnonymous: UserId)
    requires Inv(w) && w.memory.None?
    ensures Inv(Begin(w, NewInstance(user, newAnonymous)))
  {
    var m := NewInstance(user, newAnonymous);
    StoreSwitch(w.store, w.log, None, Began(m.user), m);
    PlainAppend(w.log, Began(m.user));
  }

  lemma ConfigureKeeps(w: World, explicitId: Option<UserId>, newAnonymous: UserId, io: ConfigureIo)
    requires Inv(w) && IsAnonymousId(newAnonymous)
    ensures Inv(Configure(w, explicitId, newAnonymous, io).0)
  {
    if w.memory.None? && Load(w.file).Loaded? {
      var persisted := Load(w.file).identity;
      var explicitUser := if explicitId.Some? && explicitId.value != "" then explicitId else None;
      var initial := ResolveInitialIdentity(explicitUser, persisted, newAnonymous);
      if initial.Initial? && io.setupSucceeds {
        var started := Begin(w, NewInstance(initial.user, newAnonymous));
        BeginKeeps(w, initial.user, newAnonymous);
        if initial.shouldResumePending && persisted.Some? {
          ResumeKeeps(started, persisted.value, newAnonymous, io.identity);
          SettleKeeps(ResumeTransition(started, persisted.value, newAnonymous, io.identity).0,
                      ResumeTransition(started, persisted.value, newAnonymous, io.identity).1, io.settle);
        } else {
          SettleKeeps(started, Done, io.settle);
        }
      }
    }
  }

  lemma SettleKeeps(resumed: World, o: Outcome, settle: DiskWrite)
    requires Inv(resumed)
    ensures Inv(Abandon(resumed, o).0)
    ensures resumed.memory.Some? ==>
              var (file, o2) := Persist(resumed.file, Settled(resumed.memory.value.user), settle);
              Inv(resumed.(file := file)) && Inv(Abandon(resumed.(file := file), o2).0)
  {
    DieKeeps(resumed);
    if resumed.memory.Some? {
      DieKeeps(resumed.(file := Persist(resumed.file, Settled(resumed.memory.value.user), settle).0));
    }
  }

  // ---- Receipts ------------------------------------------------------------------------

  /** Mid-loop: recovery is armed for `user`. */
  ghost predicate Recovering(w: World, user: UserId) {
    && Inv(w) && w.memory.Some?
    && w.memory.value.recoveryRequired && w.memory.value.user == user
  }

  /** The transaction may be posted now: its launch agrees with the log, and so may its barrier. */
  ghost predicate Postable(w: World, t: Transaction) {
    t.launch.Some? ==>
      && LaunchOk(t, w.log, w.memory)
      && (!t.finished && !t.launch.value.deferred && !EndedSince(w.log, t.launch.value.at) ==>
            NoSwitchSince(w.log, t.launch.value.at))
  }

  ghost predicate AllPostable(w: World, ts: seq<Transaction>) {
    forall t :: t in ts ==> Postable(w, t)
  }

  lemma QueriedPostable(w: World, mode: SyncMode)
    requires Inv(w)
    ensures AllPostable(w, Queried(w.store, mode))
  {
  }

  lemma PostableAppend(w: World, t: Transaction, e: Event)
    requires Postable(w, t) && !ChangesUser(e)
    ensures Postable(Record(w, true, e), t)
  {
    if t.launch.Some? { UserAppend(w.log, e, t.launch.value.at, t.launch.value.user); }
  }

  lemma PostKeeps(w: World, user: UserId, t: Transaction, accepted: bool)
    requires Recovering(w, user) && Postable(w, t)
    ensures Recovering(Record(w, true, Posted(t, user, accepted)), user)
  {
    var e := Posted(t, user, accepted);
    assert (w.log + [e])[..|w.log|] == w.log;
    LogAppend(w.log, e);
    StoreAppend(w.store, w.log, w.memory, e);
  }

  lemma AskKeeps(w: World, user: UserId, t: Transaction)
    requires Recovering(w, user) && |w.log| > 0 && w.log[|w.log| - 1] == Posted(t, user, true)
    ensures Recovering(Record(w, true, FinishRequested(t.token, user)), user)
  {
    LogAppend(w.log, FinishRequested(t.token, user));
    StoreAppend(w.store, w.log, w.memory, FinishRequested(t.token, user));
  }

  lemma FinishKeeps(w: World, user: UserId, token: Token)
    requires Recovering(w, user)
    ensures Recovering(w.(store := FinishIn(w.store, token)), user)
  {
    var finished := MarkFinished(WithToken(w.store.queue, token));
    forall t | t in finished && t.launch.Some? ensures LaunchOk(t, w.log, w.memory) && t.finished {
      var i :| 0 <= i < |finished| && finished[i] == t;
      var was := WithToken(w.store.queue, token)[i];
      assert was in w.store.queue && LaunchOk(was, w.log, w.memory);
    }
  }

  /** What one receipt does to the world: only receipts join the log, only finishing moves anything. */
  lemma PostThenFinishKeeps(w: World, user: UserId, t: Transaction, io: PostIo)
    requires Recovering(w, user) && Postable(w, t)
    ensures var (after, o) := PostThenFinish(w, user, t, io);
            && Inv(after) && after.file == w.file
            && (!o.Died? ==> Recovering(after, user) && after.memory == w.memory)
  {
    var post := Posted(t, user, Accepts(io.post));
    PostKeeps(w, user, t, Accepts(io.post));
    var posted := Record(w, Reached(io.post), post);
    StopKeeps(posted, ReplyOutcome(io.post));
    if ReplyOutcome(io.post).Done? {
      AskKeeps(posted, user, t);
      var asked := Record(posted, true, FinishRequested(t.token, user));
      FinishKeeps(asked, user, t.token);
      StopKeeps(asked, FinishOutcome(io.finish));
      StopKeeps(asked.(store := FinishIn(asked.store, t.token)), FinishOutcome(io.finish));
    }
  }

  lemma PostableAfter(w: World, user: UserId, t: Transaction, io: PostIo, u: Transaction)
    requires Postable(w, u) && PostThenFinish(w, user, t, io).1.Done?
    ensures Postable(PostThenFinish(w, user, t, io).0, u)
  {
    PostableAppend(w, u, Posted(t, user, true));
    PostableAppend(Record(w, true, Posted(t, user, true)), u, FinishRequested(t.token, user));
  }

  /** Arming the recovery and crossing into the store. */
  lemma LaunchKeeps(w: World, io: PurchaseIo)
    requires Inv(w) && w.memory.Some? && ReceiptOperationsReady(w.memory.value)
    ensures
      var m := w.memory.value.(recoveryRequired := true);
      var launched := Transaction(io.token, Some(Launch(m.user, |w.log|, Left(io.store).Deferred?)), false);
      var armed := Record(Update(w, m), true, Launched(io.token, m.user));
      var stored := armed.(store := Leave(armed.store, launched, Left(io.store)));
      Recovering(stored, m.user) && (Left(io.store).Created? ==> Postable(stored, launched))
  {
    var m := w.memory.value.(recoveryRequired := true);
    StoreFlags(w.store, w.log, w.memory.value, m);
    RecordKeeps(Update(w, m), true, Launched(io.token, m.user));
    UserAppend(w.log, Launched(io.token, m.user), |w.log|, m.user);
  }

  lemma PurchaseKeeps(w: World, io: PurchaseIo)
    requires Inv(w)
    ensures Inv(Purchase(w, io).0)
  {
    if w.memory.Some? && ReceiptOperationsReady(w.memory.value) && io.inputAccepted {
      var m := w.memory.value.(recoveryRequired := true);
      var launched := Transaction(io.token, Some(Launch(m.user, |w.log|, Left(io.store).Deferred?)), false);
      var armed := Record(Update(w, m), true, Launched(io.token, m.user));
      var stored := armed.(store := Leave(armed.store, launched, Left(io.store)));
      LaunchKeeps(w, io);
      StopKeeps(stored, if io.store.DiesAt? then Died else Failed);
      if io.store.Returns? {
        PostThenFinishKeeps(stored, m.user, launched, io.receipt);
        PurchaseDisarms(w, stored, launched, io);
      }
    }
  }

  /** A purchase that went through leaves nothing launched and unfinished but deferred purchases. */
  lemma PurchaseDisarms(w: World, stored: World, launched: Transaction, io: PurchaseIo)
    requires Inv(w) && w.memory.Some? && !w.memory.value.recoveryRequired
    requires stored.store == w.store.(queue := w.store.queue + [launched]) && stored.memory.Some? && w.log <= stored.log
    requires launched.launch.Some?
    requires var (after, o) := PostThenFinish(stored, launched.launch.value.user, launched, io.receipt);
             Inv(after) && (!o.Died? ==> after.memory == stored.memory)
    ensures var (after, o) := PostThenFinish(stored, launched.launch.value.user, launched, io.receipt);
            o.Done? ==> Inv(Update(after, stored.memory.value.(recoveryRequired := false)))
  {
    var (after, o) := PostThenFinish(stored, launched.launch.value.user, launched, io.receipt);
    if o.Done? {
      assert after.store == FinishIn(stored.store, launched.token);
      forall t | t in after.store.queue && t.launch.Some? ensures t.launch.value.deferred || EndedSince(after.log, t.launch.value.at) {
        assert t in w.store.queue && HeldOrFree(t.launch.value, w.log, w.memory);
        StillEnded(w.log, after.log, t.launch.value.at);
      }
      DisarmKeeps(after);
    }
  }

  lemma StillEnded(log: seq<Event>, later: seq<Event>, at: nat)
    requires log <= later
    ensures EndedSince(log, at) ==> EndedSince(later, at)
  {
    if EndedSince(log, at) {
      var j :| at <= j < |log| && log[j].Ended?;
      assert later[j].Ended?;
    }
  }

  /** The recovery is over when nothing launched is left in the queue but what no instance holds. */
  lemma DisarmKeeps(w: World)
    requires Inv(w) && w.memory.Some?
    requires forall t :: t in w.store.queue && t.launch.Some? ==> t.launch.value.deferred || EndedSince(w.log, t.launch.value.at)
    ensures Inv(Update(w, w.memory.value.(recoveryRequired := false)))
  {
    var m := w.memory.value;
    forall t | t in w.store.queue + w.store.history + w.store.awaiting && t.launch.Some?
      ensures LaunchOk(t, w.log, Some(m.(recoveryRequired := false)))
    {
      assert LaunchOk(t, w.log, w.memory);
    }
  }

  /** The queue without the tokens of the first `n` listed transactions. */
  function WithoutFirst(queue: seq<Transaction>, purchases: seq<Transaction>, n: nat): seq<Transaction>
    requires n <= |purchases|
  {
    if n == 0 then queue else WithoutToken(WithoutFirst(queue, purchases, n - 1), purchases[n - 1].token)
  }

  lemma {:induction false} WithoutFirstMembers(queue: seq<Transaction>, purchases: seq<Transaction>, n: nat)
    requires n <= |purchases|
    ensures forall t :: t in WithoutFirst(queue, purchases, n) <==>
                          t in queue && forall i :: 0 <= i < n ==> purchases[i].token != t.token
  {
    if n > 0 {
      WithoutFirstMembers(queue, purchases, n - 1);
    }
  }

  lemma {:induction false} WithoutFirstPrefix(queue: seq<Transaction>, a: seq<Transaction>, b: seq<Transaction>, n: nat)
    requires n <= |a| <= |b| && b[..|a|] == a
    ensures WithoutFirst(queue, a, n) == WithoutFirst(queue, b, n)
  {
    if n > 0 {
      WithoutFirstPrefix(queue, a, b, n - 1);
      assert b[..|a|][n - 1] == b[n - 1];
    }
  }

  lemma {:induction false} PostAllKeeps(w: World, user: UserId, purchases: seq<Transaction>, io: seq<PostIo>)
    requires Recovering(w, user) && AllPostable(w, purchases)
    ensures var (after, _, o) := PostAll(w, user, purchases, io);
            && Inv(after) && after.file == w.file
            && (!o.Died? ==> Recovering(after, user) && after.memory == w.memory)
  {
    if purchases != [] {
      var front, t := purchases[..|purchases| - 1], purchases[|purchases| - 1];
      PostAllKeeps(w, user, front, io);
      var (before, _, o) := PostAll(w, user, front, io);
      if o.Done? {
        StillPostable(w, user, front, io, t);
        PostThenFinishKeeps(before, user, t, ReceiptIo(io, |front|));
      }
    }
  }

  lemma {:induction false} StillPostable(w: World, user: UserId, purchases: seq<Transaction>, io: seq<PostIo>, t: Transaction)
    requires Postable(w, t) && PostAll(w, user, purchases, io).2.Done?
    ensures Postable(PostAll(w, user, purchases, io).0, t)
  {
    if purchases != [] {
      var front := purchases[..|purchases| - 1];
      StillPostable(w, user, front, io, t);
      PostableAfter(PostAll(w, user, front, io).0, user, purchases[|purchases| - 1], ReceiptIo(io, |front|), t);
    }
  }

  lemma PostThenFinishQueue(w: World, user: UserId, t: Transaction, io: PostIo)
    ensures var (after, o) := PostThenFinish(w, user, t, io);
            && (o.Done? ==> after.store.queue == WithoutToken(w.store.queue, t.token))
            && (o.Failed? ==> after.store.queue == w.store.queue || after.store.queue == WithoutToken(w.store.queue, t.token))
  {
  }

  /** What the loop has taken out of the queue, and how far it got. */
  predicate TookPrefix(queue: seq<Transaction>, purchases: seq<Transaction>, after: seq<Transaction>, done: nat, o: Outcome) {
    && done <= |purchases|
    && (o.Done? <==> done == |purchases|)
    && (o.Done? ==> after == WithoutFirst(queue, purchases, done))
    && (o.Failed? ==> after == WithoutFirst(queue, purchases, done) || after == WithoutFirst(queue, purchases, done + 1))
  }

  lemma {:induction false} PostAllQueue(w: World, user: UserId, purchases: seq<Transaction>, io: seq<PostIo>)
    ensures var (after, done, o) := PostAll(w, user, purchases, io);
            TookPrefix(w.store.queue, purchases, after.store.queue, done, o)
  {
    if purchases != [] {
      var n := |purchases| - 1;
      var front := purchases[..n];
      PostAllQueue(w, user, front, io);
      var (before, done, o) := PostAll(w, user, front, io);
      WithoutFirstPrefix(w.store.queue, front, purchases, done);
      if o.Done? {
        PostThenFinishQueue(before, user, purchases[n], ReceiptIo(io, n));
        assert WithoutFirst(w.store.queue, purchases, n + 1) == WithoutToken(before.store.queue, purchases[n].token);
      } else if o.Failed? {
        WithoutFirstPrefix(w.store.queue, front, purchases, done + 1);
      }
    }
  }

  /**
   * Main result 1. Reconciling finishes exactly a prefix of the queried transactions, in
   * order. Only the last finish may have landed although it reported an error; nothing later
   * is touched.
   */
  lemma SyncFinishesPrefix(w: World, user: UserId, purchases: seq<Transaction>, io: seq<PostIo>)
    requires Recovering(w, user) && AllPostable(w, purchases)
    ensures var (after, done, o) := PostAll(w, user, purchases, io);
            && Inv(after) && after.file == w.file
            && TookPrefix(w.store.queue, purchases, after.store.queue, done, o)
            && (!o.Died? ==> Recovering(after, user) && after.memory == w.memory)
  {
    PostAllKeeps(w, user, purchases, io);
    PostAllQueue(w, user, purchases, io);
  }

  /** The world in which a sync begins to post. */
  function Posting(w: World, io: SyncIo): World
    requires w.memory.Some?
  {
    Update(w.(store := w.store.(queue := w.store.queue + Delivered(io.arrivals))), w.memory.value.(recoveryRequired := true))
  }

  lemma ArmKeeps(w: World, mode: SyncMode, io: SyncIo)
    requires Inv(w) && w.memory.Some? && !w.memory.value.transitionPending
    ensures Recovering(Posting(w, io), w.memory.value.user) && AllPostable(Posting(w, io), Queried(w.store, mode))
    ensures Inv(Update(w, w.memory.value.(recoveryRequired := true)))
  {
    var m := w.memory.value.(recoveryRequired := true);
    StoreFlags(w.store, w.log, w.memory.value, m);
    QueriedPostable(Update(w, m), mode);
  }

  lemma SyncKeeps(w: World, mode: SyncMode, io: SyncIo)
    requires Inv(w)
    ensures Inv(Sync(w, mode, io).0)
  {
    if w.memory.Some? && !w.memory.value.transitionPending {
      var m := if mode.ExplicitRestore? then w.memory.value else w.memory.value.(recoveryRequired := true);
      ArmKeeps(w, mode, io);
      StopKeeps(Update(w, m), ReplyOutcome(io.query));
      if ReplyOutcome(io.query).Done? {
        if Queried(w.store, mode) == [] {
          EmptySyncKeeps(w, m, mode, io);
        } else {
          PostingSyncKeeps(w, mode, io);
        }
      }
    }
  }

  lemma EmptySyncKeeps(w: World, m: Memory, mode: SyncMode, io: SyncIo)
    requires Inv(Update(w, m)) && w.memory.Some? && m.user == w.memory.value.user && Queried(w.store, mode) == []
    ensures
      var queried := Update(w, m).(store := w.store.(queue := w.store.queue + Delivered(io.arrivals)));
      var fetched := Record(queried, Reached(io.refresh), Fetched(m.user));
      && Inv(Stop(fetched, ReplyOutcome(io.refresh)).0)
      && Inv(Update(fetched, m.(recoveryRequired := false)))
  {
    var queried := Update(w, m).(store := w.store.(queue := w.store.queue + Delivered(io.arrivals)));
    assert Inv(queried);
    RecordKeeps(queried, Reached(io.refresh), Fetched(m.user));
    var fetched := Record(queried, Reached(io.refresh), Fetched(m.user));
    StopKeeps(fetched, ReplyOutcome(io.refresh));
    assert w.store.queue == [];
    DisarmKeeps(fetched);
  }

  lemma PostingSyncKeeps(w: World, mode: SyncMode, io: SyncIo)
    requires Inv(w) && w.memory.Some? && !w.memory.value.transitionPending
    ensures
      var (after, _, o) := PostAll(Posting(w, io), w.memory.value.user, Queried(w.store, mode), io.receipts);
      Inv(after) && (o.Done? ==> Inv(Update(after, w.memory.value.(recoveryRequired := false))))
  {
    var purchases := Queried(w.store, mode);
    ArmKeeps(w, mode, io);
    SyncFinishesPrefix(Posting(w, io), w.memory.value.user, purchases, io.receipts);
    var (after, _, o) := PostAll(Posting(w, io), w.memory.value.user, purchases, io.receipts);
    if o.Done? {
      SyncLeavesArrivals(purchases, w.store.queue, io.arrivals);
      DisarmKeeps(after);
    }
  }

  /** A sync that went through has finished the whole queue it queried. */
  lemma SyncLeavesArrivals(purchases: seq<Transaction>, queue: seq<Transaction>, arrivals: seq<Token>)
    requires queue <= purchases
    ensures forall t :: t in WithoutFirst(queue + Delivered(arrivals), purchases, |purchases|) ==> t.launch.None?
  {
    var all := queue + Delivered(arrivals);
    WithoutFirstMembers(all, purchases, |purchases|);
    forall t | t in WithoutFirst(all, purchases, |purchases|)
      ensures t.launch.None?
    {
      assert forall i :: 0 <= i < |queue| ==> queue[i] == purchases[i];
      assert t in Delivered(arrivals);
    }
  }

  // ---- Whole runs ----------------------------------------------------------------------

  lemma StoreOnlyKeeps(w: World, op: Op)
    requires Inv(w) && StoreOnly(op)
    ensures Inv(Next(w, op))
  {
    var store := StoreNext(w.store, op);
    forall t | t in store.queue + store.history + store.awaiting && t.launch.Some? ensures LaunchOk(t, w.log, w.memory) {
      assert t in w.store.queue + w.store.history + w.store.awaiting;
    }
  }

  lemma StepKeeps(w: World, op: Op)
    requires Inv(w) && Legal(op)
    ensures Inv(Next(w, op))
  {
    match op
    case LibraryLogIn(target, io) => LogInKeeps(w, target, Library, io);
    case LibraryLogOut(id, io) => LogOutKeeps(w, None, id, Library, io);
    case CommandLogIn(_, target, io) => LogInKeeps(w, target, Command, io);
    case CommandLogOut(loaded, id, io) =>
      LogOutKeeps(w, None, id, Command, io);
      if loaded.Loaded? && loaded.identity.Some? {
        LogOutKeeps(w, loaded.identity.value.pending, id, Resume, io);
      }
    case Configures(explicitId, id, io) => ConfigureKeeps(w, explicitId, id, io);
    case Purchases(io) => PurchaseKeeps(w, io);
    case Syncs(mode, io) => SyncKeeps(w, mode, io);
    case Crashes => DieKeeps(w);
    case _ => StoreOnlyKeeps(w, op);
  }

  /** Before the first start: what the identity file and the store happen to hold. */
  function FirstStart(file: IdentityFile, queued: seq<Token>, finished: seq<Token>): World {
    World(file, None, Store(Delivered(queued), MarkFinished(Delivered(finished)), []), [])
  }

  lemma FirstStartOk(file: IdentityFile, queued: seq<Token>, finished: seq<Token>)
    ensures Inv(FirstStart(file, queued, finished))
  {
    var history := MarkFinished(Delivered(finished));
    forall t | t in history ensures t.finished && t.launch.None? {
      var i :| 0 <= i < |history| && history[i] == t;
      assert Delivered(finished)[i] in Delivered(finished);
    }
  }

  lemma {:induction false} InvAlong(w: World, ops: seq<Op>)
    requires Inv(w) && forall op :: op in ops ==> Legal(op)
    ensures Inv(Run(w, ops))
  {
    if ops != [] {
      assert Legal(ops[|ops| - 1]);
      InvAlong(w, ops[..|ops| - 1]);
      StepKeeps(Run(w, ops[..|ops| - 1]), ops[|ops| - 1]);
    }
  }

  // ---- Who gets past a pending transition ----------------------------------------------

  /** An operation that is not the tracked retry of the pending transition is refused as it is. */
  lemma OnlyTheSameTransitionProceeds(w: World, target: UserId, newAnonymous: UserId, host: Host, io: IdentityIo)
    requires Inv(w) && w.memory.Some? && w.memory.value.pending.Some?
    ensures !(host.Tracks() && w.memory.value.pending.value == Transition(LogInOperation, target)) ==>
              LogIn(w, target, host, io) == (w, Failed)
    ensures !(host.Tracks() && w.memory.value.pending.value.kind.LogOutOperation?) ==>
              LogOut(w, None, newAnonymous, host, io) == (w, Failed)
    ensures w.memory.value.pending.value != Transition(LogOutOperation, target) ==>
              LogOut(w, Some(target), newAnonymous, host, io) == (w, Failed)
    ensures forall p :: Purchase(w, p) == (w, Failed)
    ensures forall mode, s :: Sync(w, mode, s) == (w, Failed)
  {
  }
}
