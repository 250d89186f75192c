/**
 * Identity changes made through the Tauri commands are write-ahead and survive crashes and
 * failed writes.
 */
module IdentityTheorems {
  import opened Options
  import opened IdentityModel
  import opened PurchasesModel
  import opened PurchasesTheorems

  // ---- The identity file under the Tauri commands --------------------------------------

  /** Only the commands change identity; direct library calls keep no durable record. */
  predicate CommandsOnly(op: Op) {
    Legal(op) && !op.LibraryLogIn? && !op.LibraryLogOut?
  }

  function PendingFile(source: UserId, t: Transition): IdentityFile {
    Current(Transitioning(source, t.target, t.kind))
  }

  /** What the file may hold while the process has this in memory. */
  predicate FileAgrees(file: IdentityFile, m: Memory) {
    && ValidAppUserId(m.user)
    && match m.pending
       case None => file == Current(Settled(m.user))
       case Some(t) => file == Current(Settled(m.user)) || file == PendingFile(m.user, t) || file == Current(Settled(t.target))
  }

  /** The login request was on disk, as a transition that names both users, when it was sent. */
  predicate WrittenAhead(e: Event) {
    e.Identified? ==> e.fileAtSend == Current(Transitioning(e.source, e.target, LogInOperation))
  }

  ghost predicate HostInv(w: World) {
    && Inv(w)
    && (w.memory.Some? ==> FileAgrees(w.file, w.memory.value))
    && forall e :: e in w.log ==> WrittenAhead(e)
  }

  /** The file holds what a command wrote, or exactly the transition being resumed. */
  predicate MayWrite(w: World, m: Memory, kind: TransitionKind, target: UserId, host: Host) {
    && MayTransit(w, m, kind, target, host) && ValidAppUserId(m.user)
    && host.Tracks()
    && (|| (host.Resume? && w.file == PendingFile(m.user, Transition(kind, target)))
        || ((host.Command? || kind.LogOutOperation?) && FileAgrees(w.file, m)))
  }

  /** Everything a transition can leave behind. */
  predicate TransitResult(w: World, m: Memory, kind: TransitionKind, target: UserId, after: World, o: Outcome) {
    && after.store == w.store
    && match o
       case Done => after.file == Current(Settled(target)) && after.memory == Some(m.(user := target, pending := None, transitionPending := false))
       case Failed =>
         && after.memory == Some(m.(pending := Some(Transition(kind, target)), transitionPending := true))
         && (after.file == w.file || after.file == PendingFile(m.user, Transition(kind, target)) || after.file == Current(Settled(target)))
       case Died =>
         && after.memory.None?
         && (after.file == w.file || after.file == PendingFile(m.user, Transition(kind, target)) || after.file == Current(Settled(target)))
  }

  lemma TransitOutcomes(w: World, m: Memory, kind: TransitionKind, target: UserId, host: Host, io: IdentityIo)
    requires MayWrite(w, m, kind, target, host)
    ensures var (after, o) := Transit(w, m, kind, target, host, io); TransitResult(w, m, kind, target, after, o)
  {
  }

  /** A transition sends at most one request, after its record is on disk; then the user may change. */
  lemma TransitSends(w: World, m: Memory, kind: TransitionKind, target: UserId, host: Host, io: IdentityIo)
    requires MayWrite(w, m, kind, target, host)
    ensures var (after, o) := Transit(w, m, kind, target, host, io);
            var request := if kind.LogInOperation?
                           then Identified(m.user, target, PendingFile(m.user, Transition(kind, target)), Accepts(io.call))
                           else Fetched(target);
            match o
            case Done => after.log == w.log + [request] + [Switched(m.user, target)]
            case Failed => after.log == w.log || after.log == w.log + [request]
            case Died => after.log == w.log + [Ended] || after.log == w.log + [request] + [Ended]
  {
  }

  ghost predicate AllAhead(log: seq<Event>) {
    forall e :: e in log ==> WrittenAhead(e)
  }

  // ---- Receipt operations leave the identity alone -------------------------------------

  /** Same file, same user, same pending transition; only receipts were added to the log. */
  ghost predicate IdentityUntouched(w: World, after: World) {
    && after.file == w.file
    && (after.memory.Some? ==>
          && w.memory.Some? && after.memory.value.user == w.memory.value.user
          && after.memory.value.pending == w.memory.value.pending)
    && (AllAhead(w.log) ==> AllAhead(after.log))
  }

  lemma PostThenFinishUntouched(w: World, user: UserId, t: Transaction, io: PostIo)
    ensures IdentityUntouched(w, PostThenFinish(w, user, t, io).0)
  {
  }

  lemma {:induction false} PostAllUntouched(w: World, user: UserId, purchases: seq<Transaction>, io: seq<PostIo>)
    ensures IdentityUntouched(w, PostAll(w, user, purchases, io).0)
  {
    if purchases != [] {
      var front := purchases[..|purchases| - 1];
      PostAllUntouched(w, user, front, io);
      PostThenFinishUntouched(PostAll(w, user, front, io).0, user, purchases[|purchases| - 1], ReceiptIo(io, |front|));
    }
  }

  lemma PurchaseUntouched(w: World, io: PurchaseIo)
    ensures IdentityUntouched(w, Purchase(w, io).0)
  {
    if w.memory.Some? {
      var m := w.memory.value.(recoveryRequired := true);
      var launched := Transaction(io.token, Some(Launch(m.user, |w.log|, Left(io.store).Deferred?)), false);
      var armed := Record(Update(w, m), true, Launched(io.token, m.user));
      PostThenFinishUntouched(armed.(store := Leave(armed.store, launched, Left(io.store))), m.user, launched, io.receipt);
    }
  }

  lemma SyncUntouched(w: World, mode: SyncMode, io: SyncIo)
    ensures IdentityUntouched(w, Sync(w, mode, io).0)
  {
    if w.memory.Some? {
      PostAllUntouched(Posting(w, io), w.memory.value.user, Queried(w.store, mode), io.receipts);
    }
  }

  // ---- Commands keep file and memory in agreement --------------------------------------

  lemma TransitAgrees(w: World, m: Memory, kind: TransitionKind, target: UserId, host: Host, io: IdentityIo)
    requires MayWrite(w, m, kind, target, host) && AllAhead(w.log)
    requires FileAgrees(w.file, m) || host.Resume?
    ensures var after := Transit(w, m, kind, target, host, io).0;
            && (after.memory.Some? ==> FileAgrees(after.file, after.memory.value))
            && AllAhead(after.log)
  {
    TransitOutcomes(w, m, kind, target, host, io);
    TransitSends(w, m, kind, target, host, io);
  }

  lemma LogInCommandAgrees(w: World, loaded: Loaded, target: UserId, io: IdentityIo)
    requires HostInv(w)
    ensures HostInv(LogInCommand(w, loaded, target, io).0)
  {
    LogInKeeps(w, target, Command, io);
    if LogInCommand(w, loaded, target, io) != (w, Failed) {
      var m := w.memory.value;
      if m.user != target {
        TransitAgrees(w, m, LogInOperation, target, Command, io);
      }
    }
  }

  lemma LogOutCommandAgrees(w: World, loaded: Loaded, newAnonymous: UserId, io: IdentityIo)
    requires HostInv(w) && IsAnonymousId(newAnonymous)
    ensures HostInv(LogOutCommand(w, loaded, newAnonymous, io).0)
  {
    StepKeeps(w, CommandLogOut(loaded, newAnonymous, io));
    if LogOutCommand(w, loaded, newAnonymous, io) != (w, Failed) {
      var m, identity := w.memory.value, loaded.identity;
      if identity.Some? && identity.value.pending.Some? {
        AnonymousIdsAreValid(identity.value.pending.value);
        TransitAgrees(w, m, LogOutOperation, identity.value.pending.value, Resume, io);
      } else {
        AnonymousIdsAreValid(LogOutTarget(m, None, newAnonymous, true));
        TransitAgrees(w, m, LogOutOperation, LogOutTarget(m, None, newAnonymous, true), Command, io);
      }
    }
  }

  // ---- Restarts ------------------------------------------------------------------------

  /** The record a restart resumes from. */
  predicate Resumable(file: IdentityFile, identity: PersistedIdentity) {
    && Load(file) == Loaded(Some(identity)) && identity.pending.Some?
  }

  lemma ResumableFile(file: IdentityFile, identity: PersistedIdentity)
    requires Resumable(file, identity)
    ensures identity.operation.Some?
    ensures file == PendingFile(identity.current, Transition(identity.operation.value, identity.pending.value))
    ensures ValidAppUserId(identity.current) && ValidAppUserId(identity.pending.value)
  {
  }

  /** A fresh instance resuming the record on disk. */
  lemma ResumeOutcomes(w: World, identity: PersistedIdentity, newAnonymous: UserId, io: IdentityIo)
    requires Resumable(w.file, identity) && w.memory == Some(Memory(identity.current, None, false, false)) && AllAhead(w.log)
    ensures var (after, o) := ResumeTransition(w, identity, newAnonymous, io);
            && AllAhead(after.log)
            && (after.file == w.file || after.file == Current(Settled(identity.pending.value))
                || after.file == Current(Settled(identity.current)))
            && (o.Done? ==> after.memory.Some? && after.memory.value.pending.None? && !after.memory.value.recoveryRequired &&
                            !after.memory.value.transitionPending &&
                            after.memory.value.user == identity.pending.value &&
                            after.file == Current(Settled(identity.pending.value)))
            && (after.file == Current(Settled(identity.current)) ==> after.file == Current(Settled(identity.pending.value)))
  {
    ResumableFile(w.file, identity);
    var m := w.memory.value;
    if identity.operation == Some(LogOutOperation) {
      if IsAnonymousId(identity.pending.value) && !IsAnonymousId(m.user) {
        TransitOutcomes(w, m, LogOutOperation, identity.pending.value, Resume, io);
        TransitSends(w, m, LogOutOperation, identity.pending.value, Resume, io);
      }
    } else if m.user != identity.pending.value {
      assert identity.operation.value.LogInOperation?;
      TransitOutcomes(w, m, LogInOperation, identity.pending.value, Resume, io);
      TransitSends(w, m, LogInOperation, identity.pending.value, Resume, io);
    }
  }

  /** Everything a restart can leave behind. */
  predicate ConfigureResult(w: World, explicitId: Option<UserId>, after: World, o: Outcome) {
    var persisted := Load(w.file);
    && (o.Done? ==> after.memory.Some? && FileAgrees(after.file, after.memory.value) && after.memory.value.pending.None?)
    && (!o.Done? ==> after.memory.None?)
    && (persisted.LoadFailed? ==> o.Failed? && after.file == w.file)
    && (persisted.Loaded? && persisted.identity.Some? && persisted.identity.value.pending.Some? ==>
          var target := persisted.identity.value.pending.value;
          && (o.Done? ==> after.memory.value.user == target)
          && (after.file == w.file || after.file == Current(Settled(target))))
    && (persisted.Loaded? && persisted.identity.Some? && persisted.identity.value.pending.None? &&
        (explicitId.None? || explicitId.value == "" || explicitId.value == persisted.identity.value.current) ==>
          && (o.Done? ==> after.memory.value.user == persisted.identity.value.current)
          && (after.file == w.file || after.file == Current(Settled(persisted.identity.value.current))))
  }

  lemma ConfigureOutcomes(w: World, explicitId: Option<UserId>, newAnonymous: UserId, io: ConfigureIo)
    requires w.memory.None? && AllAhead(w.log)
    ensures var (after, o) := Configure(w, explicitId, newAnonymous, io);
            ConfigureResult(w, explicitId, after, o) && AllAhead(after.log)
  {
    if Load(w.file).Loaded? {
      var persisted := Load(w.file).identity;
      if persisted.Some? && persisted.value.pending.Some? {
        ConfigureResuming(w, explicitId, newAnonymous, io);
      } else {
        ConfigureSettled(w, explicitId, newAnonymous, io);
      }
    }
  }

  lemma ConfigureResuming(w: World, explicitId: Option<UserId>, newAnonymous: UserId, io: ConfigureIo)
    requires w.memory.None? && AllAhead(w.log)
    requires Load(w.file).Loaded? && Load(w.file).identity.Some? && Load(w.file).identity.value.pending.Some?
    ensures var (after, o) := Configure(w, explicitId, newAnonymous, io);
            ConfigureResult(w, explicitId, after, o) && AllAhead(after.log)
  {
    var identity := Load(w.file).identity.value;
    ResumableFile(w.file, identity);
    var started := Begin(w, NewInstance(identity.current, newAnonymous));
    ResumeOutcomes(started, identity, newAnonymous, io.identity);
  }

  lemma ConfigureSettled(w: World, explicitId: Option<UserId>, newAnonymous: UserId, io: ConfigureIo)
    requires w.memory.None? && AllAhead(w.log)
    requires Load(w.file).Loaded? && (Load(w.file).identity.None? || Load(w.file).identity.value.pending.None?)
    ensures var (after, o) := Configure(w, explicitId, newAnonymous, io);
            ConfigureResult(w, explicitId, after, o) && AllAhead(after.log)
  {
  }

  // ---- Whole runs ----------------------------------------------------------------------

  lemma CommandStep(w: World, op: Op)
    requires HostInv(w) && CommandsOnly(op)
    ensures HostInv(Next(w, op))
  {
    StepKeeps(w, op);
    match op
    case CommandLogIn(loaded, target, io) => LogInCommandAgrees(w, loaded, target, io);
    case CommandLogOut(loaded, id, io) => LogOutCommandAgrees(w, loaded, id, io);
    case Configures(explicitId, id, io) => if w.memory.None? { ConfigureOutcomes(w, explicitId, id, io); }
    case Purchases(io) => PurchaseUntouched(w, io);
    case Syncs(mode, io) => SyncUntouched(w, mode, io);
    case _ =>
  }

  lemma {:induction false} HostInvAlong(w: World, ops: seq<Op>)
    requires HostInv(w) && forall op :: op in ops ==> CommandsOnly(op)
    ensures HostInv(Run(w, ops))
  {
    if ops != [] {
      assert CommandsOnly(ops[|ops| - 1]);
      HostInvAlong(w, ops[..|ops| - 1]);
      CommandStep(Run(w, ops[..|ops| - 1]), ops[|ops| - 1]);
    }
  }

  /**
   * Main result 6. Whatever the file first held and whatever fails or crashes, every login
   * request was sent with transitioning(from, to, LogIn) on disk; and the file never names
   * anything but the user in memory and its pending transition.
   */
  lemma LoginsAreWriteAhead(file: IdentityFile, queued: seq<Token>, finished: seq<Token>, ops: seq<Op>)
    requires forall op :: op in ops ==> CommandsOnly(op)
    ensures var w := Run(FirstStart(file, queued, finished), ops);
            && (forall e :: e in w.log ==> WrittenAhead(e))
            && (w.memory.Some? ==> FileAgrees(w.file, w.memory.value))
  {
    FirstStartOk(file, queued, finished);
    HostInvAlong(FirstStart(file, queued, finished), ops);
  }

  // ---- An accepted login survives ------------------------------------------------------

  /** The backend accepted a login from `a` to `b`, and nothing later was started. */
  predicate LoggedIn(w: World, a: UserId, b: UserId) {
    && a != b
    && (w.file == Current(Transitioning(a, b, LogInOperation)) || w.file == Current(Settled(b)))
    && ValidAppUserId(a) && ValidAppUserId(b)
    && (w.memory.Some? ==>
          var m := w.memory.value;
          || (m.pending.None? && m.user == b)
          || (m.user == a && m.pending == Some(Transition(LogInOperation, b))))
  }

  /** No other identity change is begun once `b` is active, and no restart names another id. */
  predicate StaysWith(w: World, op: Op, b: UserId) {
    match op
    case CommandLogIn(_, target, _) => target == b || w.memory.None? || w.memory.value.pending.Some?
    case CommandLogOut(_, _, _) => w.memory.None? || w.memory.value.pending.Some?
    case Configures(explicitId, _, _) => explicitId.None? || explicitId.value == "" || explicitId.value == b
    case _ => true
  }

  ghost predicate StaysWithAlong(w: World, ops: seq<Op>, b: UserId) {
    ops != [] ==> StaysWithAlong(w, ops[..|ops| - 1], b) && StaysWith(Run(w, ops[..|ops| - 1]), ops[|ops| - 1], b)
  }

  /** Acceptance is what establishes it, however the command then ends. */
  lemma AcceptanceLogsIn(w: World, loaded: Loaded, b: UserId, io: IdentityIo)
    requires HostInv(w) && w.memory.Some?
    requires var after := LogInCommand(w, loaded, b, io).0;
             |after.log| > |w.log| && after.log[|w.log|].Identified? && after.log[|w.log|].accepted
    ensures LoggedIn(LogInCommand(w, loaded, b, io).0, w.memory.value.user, b)
  {
    var m := w.memory.value;
    TransitOutcomes(w, m, LogInOperation, b, Command, io);
    TransitSends(w, m, LogInOperation, b, Command, io);
    AcceptedTransit(w, m, b, io);
  }

  lemma AcceptedTransit(w: World, m: Memory, b: UserId, io: IdentityIo)
    requires MayWrite(w, m, LogInOperation, b, Command)
    requires var log := Transit(w, m, LogInOperation, b, Command, io).0.log;
             |log| > |w.log| && log[|w.log|].Identified? && log[|w.log|].accepted
    ensures var after := Transit(w, m, LogInOperation, b, Command, io).0;
            after.file == Current(Transitioning(m.user, b, LogInOperation)) || after.file == Current(Settled(b))
  {
  }

  lemma LogInCommandStays(w: World, loaded: Loaded, target: UserId, io: IdentityIo, a: UserId, b: UserId)
    requires HostInv(w) && LoggedIn(w, a, b) && StaysWith(w, CommandLogIn(loaded, target, io), b)
    ensures LoggedIn(LogInCommand(w, loaded, target, io).0, a, b)
  {
    if LogInCommand(w, loaded, target, io) != (w, Failed) {
      var m := w.memory.value;
      assert target == b;
      if m.user != b {
        TransitOutcomes(w, m, LogInOperation, b, Command, io);
      }
    }
  }

  lemma LoggedInStep(w: World, op: Op, a: UserId, b: UserId)
    requires HostInv(w) && LoggedIn(w, a, b) && CommandsOnly(op) && StaysWith(w, op, b)
    ensures LoggedIn(Next(w, op), a, b)
  {
    match op
    case CommandLogIn(loaded, target, io) => LogInCommandStays(w, loaded, target, io, a, b);
    case CommandLogOut(loaded, id, io) =>
      if w.memory.Some? {
        OnlyTheSameTransitionProceeds(w, b, id, Command, io);
        if loaded.Loaded? && loaded.identity.Some? && loaded.identity.value.pending.Some? {
          OnlyTheSameTransitionProceeds(w, loaded.identity.value.pending.value, id, Resume, io);
        }
      }
    case Configures(explicitId, id, io) => if w.memory.None? { ConfigureOutcomes(w, explicitId, id, io); }
    case Purchases(io) => PurchaseUntouched(w, io);
    case Syncs(mode, io) => SyncUntouched(w, mode, io);
    case _ =>
  }

  /**
   * Main result 7. From the moment the backend accepted a login from `a` to `b`, until a later
   * identity change is begun, the file is that transition or settled(b): under crashes at any
   * step, writes that fail before or after landing, retries, refused operations and restarts.
   */
  lemma {:induction false} AcceptedLoginSurvives(w: World, ops: seq<Op>, a: UserId, b: UserId)
    requires HostInv(w) && LoggedIn(w, a, b)
    requires (forall op :: op in ops ==> CommandsOnly(op)) && StaysWithAlong(w, ops, b)
    ensures LoggedIn(Run(w, ops), a, b)
  {
    if ops != [] {
      var front, op := ops[..|ops| - 1], ops[|ops| - 1];
      assert CommandsOnly(op);
      AcceptedLoginSurvives(w, front, a, b);
      HostInvAlong(w, front);
      LoggedInStep(Run(w, front), op, a, b);
    }
  }

  // ---- Until another change commits ----------------------------------------------------

  /** The file settles on somebody else than `b`: another identity change has committed. */
  predicate CommittedElsewhere(file: IdentityFile, b: UserId) {
    file.Current? && file.identity.pending.None? && file.identity.current != b
  }

  /** The login to `b` is on disk: pending, settled, or with a later change prepared on top. */
  predicate StillNames(w: World, a: UserId, b: UserId) {
    && a != b && ValidAppUserId(a) && ValidAppUserId(b)
    && (|| w.file == Current(Transitioning(a, b, LogInOperation))
        || w.file == Current(Settled(b))
        || (w.file.Current? && ValidIdentity(w.file.identity) && w.file.identity.current == b && w.file.identity.pending.Some?))
    && (w.memory.Some? ==>
          var m := w.memory.value;
          m.user == b || (m.user == a && m.pending == Some(Transition(LogInOperation, b))))
  }

  ghost predicate NoOtherCommit(w: World, ops: seq<Op>, b: UserId) {
    ops != [] ==> NoOtherCommit(w, ops[..|ops| - 1], b) && !CommittedElsewhere(Run(w, ops).file, b)
  }

  /** A transition from `b`, or the retry of the one to `b`, keeps `b` on disk until it commits. */
  lemma TransitNames(w: World, m: Memory, kind: TransitionKind, target: UserId, after: World, o: Outcome, a: UserId, b: UserId)
    requires StillNames(w, a, b) && w.memory == Some(m) && TransitResult(w, m, kind, target, after, o)
    requires m.user == b || (kind == LogInOperation && target == b)
    requires ValidAppUserId(target) && !CommittedElsewhere(after.file, b)
    ensures StillNames(after, a, b)
  {
  }

  lemma LogInNames(w: World, loaded: Loaded, target: UserId, io: IdentityIo, a: UserId, b: UserId)
    requires HostInv(w) && StillNames(w, a, b)
    requires !CommittedElsewhere(LogInCommand(w, loaded, target, io).0.file, b)
    ensures StillNames(LogInCommand(w, loaded, target, io).0, a, b)
  {
    if LogInCommand(w, loaded, target, io) != (w, Failed) {
      var m := w.memory.value;
      if m.user != target {
        TransitOutcomes(w, m, LogInOperation, target, Command, io);
        var (after, o) := Transit(w, m, LogInOperation, target, Command, io);
        TransitNames(w, m, LogInOperation, target, after, o, a, b);
      }
    }
  }

  lemma LogOutNames(w: World, loaded: Loaded, newAnonymous: UserId, io: IdentityIo, a: UserId, b: UserId)
    requires HostInv(w) && StillNames(w, a, b) && IsAnonymousId(newAnonymous)
    requires !CommittedElsewhere(LogOutCommand(w, loaded, newAnonymous, io).0.file, b)
    ensures StillNames(LogOutCommand(w, loaded, newAnonymous, io).0, a, b)
  {
    if LogOutCommand(w, loaded, newAnonymous, io) != (w, Failed) {
      var m, identity := w.memory.value, loaded.identity;
      var resumes := identity.Some? && identity.value.pending.Some?;
      var host := if resumes then Resume else Command;
      var target := if resumes then identity.value.pending.value else LogOutTarget(m, None, newAnonymous, true);
      AnonymousIdsAreValid(target);
      TransitOutcomes(w, m, LogOutOperation, target, host, io);
      var (after, o) := Transit(w, m, LogOutOperation, target, host, io);
      TransitNames(w, m, LogOutOperation, target, after, o, a, b);
    }
  }

  /** Configuring over a settled file leaves it, or settles on the configured user. */
  lemma ConfigureSettles(w: World, explicitId: Option<UserId>, newAnonymous: UserId, io: ConfigureIo, b: UserId)
    requires w.memory.None? && w.file == Current(Settled(b)) && ValidAppUserId(b)
    ensures var after := Configure(w, explicitId, newAnonymous, io).0;
            after.file == w.file || (after.file.Current? && after.file.identity == Settled(after.file.identity.current))
  {
  }

  lemma ConfigureNames(w: World, explicitId: Option<UserId>, newAnonymous: UserId, io: ConfigureIo, a: UserId, b: UserId)
    requires HostInv(w) && StillNames(w, a, b) && w.memory.None?
    requires !CommittedElsewhere(Configure(w, explicitId, newAnonymous, io).0.file, b)
    ensures StillNames(Configure(w, explicitId, newAnonymous, io).0, a, b)
  {
    ConfigureOutcomes(w, explicitId, newAnonymous, io);
    if w.file == Current(Settled(b)) { ConfigureSettles(w, explicitId, newAnonymous, io, b); }
  }

  lemma StillNamesStep(w: World, op: Op, a: UserId, b: UserId)
    requires HostInv(w) && StillNames(w, a, b) && CommandsOnly(op) && !CommittedElsewhere(Next(w, op).file, b)
    ensures StillNames(Next(w, op), a, b)
  {
    match op
    case CommandLogIn(loaded, target, io) => LogInNames(w, loaded, target, io, a, b);
    case CommandLogOut(loaded, id, io) => LogOutNames(w, loaded, id, io, a, b);
    case Configures(explicitId, id, io) => if w.memory.None? { ConfigureNames(w, explicitId, id, io, a, b); }
    case Purchases(io) => PurchaseUntouched(w, io);
    case Syncs(mode, io) => SyncUntouched(w, mode, io);
    case _ =>
  }

  /**
   * Main result 7, continued. In any run of commands, restarts (under any id) and crashes, the
   * accepted login stays on disk, pending, settled or under a later prepared change, until
   * another identity change commits.
   */
  lemma {:induction false} AcceptedLoginSurvivesUntilCommit(w: World, ops: seq<Op>, a: UserId, b: UserId)
    requires HostInv(w) && LoggedIn(w, a, b)
    requires (forall op :: op in ops ==> CommandsOnly(op)) && NoOtherCommit(w, ops, b)
    ensures StillNames(Run(w, ops), a, b)
  {
    if ops != [] {
      var front, op := ops[..|ops| - 1], ops[|ops| - 1];
      assert CommandsOnly(op);
      AcceptedLoginSurvivesUntilCommit(w, front, a, b);
      HostInvAlong(w, front);
      StillNamesStep(Run(w, front), op, a, b);
    }
  }

  const ALL_GOES_WELL := IdentityIo(Succeeds, Answered(true), Succeeds, Answered(true))

  /** A restart that names no other id ends on `b` when it succeeds, and can always succeed. */
  lemma RestartEndsOnTarget(w: World, explicitId: Option<UserId>, newAnonymous: UserId, io: ConfigureIo, a: UserId, b: UserId)
    requires HostInv(w) && LoggedIn(w, a, b) && w.memory.None?
    requires explicitId.None? || explicitId.value == "" || explicitId.value == b
    ensures var (after, o) := Configure(w, explicitId, newAnonymous, io);
            && LoggedIn(after, a, b)
            && (o.Done? ==> after.memory.Some? && after.memory.value.user == b && after.file == Current(Settled(b)))
    ensures Configure(w, explicitId, newAnonymous, ConfigureIo(true, ALL_GOES_WELL, Succeeds)).1.Done?
  {
    ConfigureOutcomes(w, explicitId, newAnonymous, io);
    RestartSucceeds(w, explicitId, newAnonymous, a, b);
  }

  lemma RestartSucceeds(w: World, explicitId: Option<UserId>, newAnonymous: UserId, a: UserId, b: UserId)
    requires LoggedIn(w, a, b) && w.memory.None?
    requires explicitId.None? || explicitId.value == "" || explicitId.value == b
    ensures Configure(w, explicitId, newAnonymous, ConfigureIo(true, ALL_GOES_WELL, Succeeds)).1.Done?
  {
    var m := NewInstance(a, newAnonymous);
    assert m == Memory(a, None, false, false);
  }

  // ---- No wedge ------------------------------------------------------------------------

  /** The operation that lifts whichever barrier is up. */
  function LiftingOp(file: IdentityFile, m: Memory): Op {
    if m.pending.Some? then
      if m.pending.value.kind.LogInOperation? then CommandLogIn(Load(file), m.pending.value.target, ALL_GOES_WELL)
      else CommandLogOut(Load(file), m.pending.value.target, ALL_GOES_WELL)
    else Syncs(FullQueue, SyncIo(Answered(true), [], Answered(true), []))
  }

  lemma {:induction false} PostAllSucceeds(w: World, user: UserId, purchases: seq<Transaction>)
    ensures var (after, done, o) := PostAll(w, user, purchases, []); o.Done? && after.memory == w.memory
  {
    if purchases != [] {
      PostAllSucceeds(w, user, purchases[..|purchases| - 1]);
    }
  }

  /**
   * Main result 8. The barriers cannot wedge: from every reachable configured state, one
   * retry of the pending operation, or one sync, whose calls succeed makes receipt operations
   * and identity changes available again.
   */
  lemma BarriersLift(w: World)
    requires HostInv(w) && w.memory.Some?
    ensures Legal(LiftingOp(w.file, w.memory.value))
    ensures var after := Next(w, LiftingOp(w.file, w.memory.value));
            after.memory.Some? && ReceiptOperationsReady(after.memory.value) && after.memory.value.pending.None?
  {
    var m := w.memory.value;
    if m.pending.Some? {
      var target := m.pending.value.target;
      if m.pending.value.kind.LogInOperation? {
        TransitOutcomes(w, m, LogInOperation, target, Command, ALL_GOES_WELL);
      } else {
        LiftLogOut(w, m, target);
      }
    } else if Queried(w.store, FullQueue) != [] {
      PostAllSucceeds(Posting(w, SyncIo(Answered(true), [], Answered(true), [])), m.user, Queried(w.store, FullQueue));
    }
  }

  lemma LiftLogOut(w: World, m: Memory, target: UserId)
    requires HostInv(w) && w.memory == Some(m) && m.pending == Some(Transition(LogOutOperation, target))
    ensures var after := LogOutCommand(w, Load(w.file), target, ALL_GOES_WELL).0;
            after.memory.Some? && ReceiptOperationsReady(after.memory.value) && after.memory.value.pending.None?
  {
    if w.file == PendingFile(m.user, m.pending.value) {
      TransitOutcomes(w, m, LogOutOperation, target, Resume, ALL_GOES_WELL);
    } else {
      TransitOutcomes(w, m, LogOutOperation, target, Command, ALL_GOES_WELL);
    }
  }
}
