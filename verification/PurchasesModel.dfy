/**
 * The `Purchases` facade, the Tauri commands around it, and what they talk to: the identity
 * file, the native store and the backend.
 *
 * Every operation here holds `identity_operation` from its first check to its last effect, so
 * operations do not interleave; what can differ is the outcome of each awaited call. An
 * outcome may also be that the process dies there.
 */
module PurchasesModel {
  import opened Options
  import opened IdentityModel

  type Token = string

  /**
   * A purchase launched here: who launched it, where the log records that, and whether the
   * store deferred it (Ask to Buy, a pending payment).
   */
  datatype Launch = Launch(user: UserId, at: nat, deferred: bool)

  /** `launch` is history that no operation looks at; it is absent for a transaction not launched here. */
  datatype Transaction = Transaction(token: Token, launch: Option<Launch>, finished: bool)

  /**
   * The native store. `queue` holds the unfinished transactions, `history` the finished ones
   * that a full query still reports, `awaiting` the deferred purchases not yet decided.
   */
  datatype Store = Store(queue: seq<Transaction>, history: seq<Transaction>, awaiting: seq<Transaction>)

  datatype Transition = Transition(kind: TransitionKind, target: UserId)

  datatype Memory = Memory(
    user: UserId,
    pending: Option<Transition>,
    transitionPending: bool,
    recoveryRequired: bool)

  /** What reached the backend or the store, and what became of instance and user, in order. */
  datatype Event =
    | Began(user: UserId)
    | Ended
    | Identified(source: UserId, target: UserId, fileAtSend: IdentityFile, accepted: bool)
    | Fetched(user: UserId)
    | Launched(token: Token, user: UserId)
    | Switched(source: UserId, target: UserId)
    | Posted(transaction: Transaction, user: UserId, accepted: bool)
    | FinishRequested(token: Token, user: UserId)

  datatype World = World(
    file: IdentityFile,
    memory: Option<Memory>,
    store: Store,
    log: seq<Event>)

  /** How an awaited backend call ends. `accepted` is what the backend did with it. */
  datatype Reply = Answered(accepted: bool) | Lost(accepted: bool) | DiesUnsent | DiesSent(accepted: bool)

  function ReplyOutcome(r: Reply): Outcome {
    match r
    case Answered(accepted) => if accepted then Done else Failed
    case Lost(_) => Failed
    case DiesUnsent => Died
    case DiesSent(_) => Died
  }

  predicate Reached(r: Reply) {
    !r.DiesUnsent?
  }

  predicate Accepts(r: Reply) {
    !r.DiesUnsent? && r.accepted
  }

  /** The instance ends, with the process or with a configuration that fails: memory is gone. */
  function Die(w: World): World {
    w.(memory := None, log := w.log + [Ended])
  }

  function Stop(w: World, o: Outcome): (World, Outcome) {
    (if o.Died? then Die(w) else w, o)
  }

  function Update(w: World, m: Memory): World {
    w.(memory := Some(m))
  }

  function Record(w: World, happened: bool, e: Event): World {
    if happened then w.(log := w.log + [e]) else w
  }

  // ---- Identity transitions ------------------------------------------------------------

  /**
   * Who runs the transition: the plain library call (no durable record), a Tauri command
   * (prepare and commit write the file) or a resumption (only commit does).
   */
  datatype Host = Library | Command | Resume {
    predicate Tracks() {
      !Library?
    }
  }

  datatype IdentityIo = IdentityIo(prepare: DiskWrite, call: Reply, commit: DiskWrite, refresh: Reply)

  function RunPrepare(w: World, host: Host, source: UserId, target: UserId, kind: TransitionKind, d: DiskWrite): (World, Outcome) {
    if !host.Command? then (w, Done)
    else var (file, o) := Persist(w.file, Transitioning(source, target, kind), d); (w.(file := file), o)
  }

  function RunCommit(w: World, host: Host, target: UserId, d: DiskWrite): (World, Outcome) {
    if host.Library? then (w, Done)
    else var (file, o) := Persist(w.file, Settled(target), d); (w.(file := file), o)
  }

  predicate TransitionAllowed(m: Memory, kind: TransitionKind, target: UserId, tracked: bool) {
    m.pending.None? || (tracked && m.pending.value == Transition(kind, target))
  }

  function Mark(m: Memory, kind: TransitionKind, target: UserId, tracked: bool): Memory {
    if tracked then m.(pending := Some(Transition(kind, target)), transitionPending := true) else m
  }

  function Clear(m: Memory, tracked: bool): Memory {
    if tracked then m.(pending := None, transitionPending := false) else m
  }

  /** `identify` for a login, the new user's customer info for a logout. */
  function Call(w: World, kind: TransitionKind, source: UserId, target: UserId, r: Reply): World {
    Record(w, Reached(r), if kind.LogInOperation? then Identified(source, target, w.file, Accepts(r)) else Fetched(target))
  }

  /** Mark, prepare, call the backend, commit, switch the user. */
  function Transit(w: World, m: Memory, kind: TransitionKind, target: UserId, host: Host, io: IdentityIo): (World, Outcome) {
    var marked := Mark(m, kind, target, host.Tracks());
    var (prepared, o1) := RunPrepare(Update(w, marked), host, m.user, target, kind, io.prepare);
    if !o1.Done? then Stop(prepared, o1)
    else
      var called := Call(prepared, kind, m.user, target, io.call);
      if !ReplyOutcome(io.call).Done? then Stop(called, ReplyOutcome(io.call))
      else
        var (committed, o3) := RunCommit(called, host, target, io.commit);
        if !o3.Done? then Stop(committed, o3)
        else (Record(Update(committed, Clear(marked.(user := target), host.Tracks())), true, Switched(m.user, target)), Done)
  }

  function LogIn(w: World, target: UserId, host: Host, io: IdentityIo): (World, Outcome) {
    if w.memory.None? || !ValidAppUserId(target) then (w, Failed)
    else
      var m := w.memory.value;
      if !TransitionAllowed(m, LogInOperation, target, host.Tracks()) then (w, Failed)
      else if m.user != target && m.recoveryRequired then (w, Failed)
      else if m.user == target then
        var (committed, o) := RunCommit(w, host, m.user, io.commit);
        if !o.Done? then Stop(committed, o)
        else
          Stop(Update(committed, Clear(m, host.Tracks())), ReplyOutcome(io.refresh))
      else Transit(w, m, LogInOperation, target, host, io)
  }

  /** `resumed` is the anonymous id of an interrupted logout; `newAnonymous` is the id generated otherwise. */
  function LogOut(w: World, resumed: Option<UserId>, newAnonymous: UserId, host: Host, io: IdentityIo): (World, Outcome) {
    if w.memory.None? || (resumed.Some? && !IsAnonymousId(resumed.value)) then (w, Failed)
    else
      var m := w.memory.value;
      if IsAnonymousId(m.user) || m.recoveryRequired then (w, Failed)
      else
        var target := LogOutTarget(m, resumed, newAnonymous, host.Tracks());
        if !TransitionAllowed(m, LogOutOperation, target, host.Tracks()) then (w, Failed)
        else Transit(w, m, LogOutOperation, target, host, io)
  }

  function LogOutTarget(m: Memory, resumed: Option<UserId>, newAnonymous: UserId, tracked: bool): UserId {
    if resumed.Some? then resumed.value
    else if tracked && m.pending.Some? && m.pending.value.kind.LogOutOperation? then m.pending.value.target
    else newAnonymous
  }

  // ---- Tauri commands ------------------------------------------------------------------

  predicate ConflictsWith(l: Loaded, kind: TransitionKind, target: Option<UserId>)
    requires l.Loaded?
  {
    l.identity.Some? && l.identity.value.pending.Some? &&
    (l.identity.value.operation != Some(kind) || (target.Some? && l.identity.value.pending != target))
  }

  /**
   * A command reads the file before it waits for `identity_operation`, so `loaded` may be
   * older than `w.file` by the time the operation runs.
   */
  function LogInCommand(w: World, loaded: Loaded, target: UserId, io: IdentityIo): (World, Outcome) {
    if w.memory.None? || loaded.LoadFailed? || ConflictsWith(loaded, LogInOperation, Some(target))
    then (w, Failed)
    else LogIn(w, target, Command, io)
  }

  function LogOutCommand(w: World, loaded: Loaded, newAnonymous: UserId, io: IdentityIo): (World, Outcome) {
    if w.memory.None? || loaded.LoadFailed? || ConflictsWith(loaded, LogOutOperation, None)
    then (w, Failed)
    else
      var identity := loaded.identity;
      if identity.Some? && identity.value.pending.Some? then LogOut(w, identity.value.pending, newAnonymous, Resume, io)
      else LogOut(w, None, newAnonymous, Command, io)
  }

  datatype Initial = Conflict | Initial(user: UserId, shouldResumePending: bool)

  function ResolveInitialIdentity(explicitId: Option<UserId>, persisted: Option<PersistedIdentity>, newAnonymous: UserId): Initial {
    if persisted.Some? && persisted.value.pending.Some? then
      if explicitId.Some? && explicitId != persisted.value.pending then Conflict
      else Initial(persisted.value.current, true)
    else
      Initial(if explicitId.Some? then explicitId.value
              else if persisted.Some? then persisted.value.current else newAnonymous, false)
  }

  /** `setupSucceeds` stands for the configuration and store checks in between. */
  datatype ConfigureIo = ConfigureIo(setupSucceeds: bool, identity: IdentityIo, settle: DiskWrite)

  function ResumeTransition(w: World, identity: PersistedIdentity, newAnonymous: UserId, io: IdentityIo): (World, Outcome) {
    if identity.pending.None? then (w, Done)
    else if identity.operation == Some(LogOutOperation) then LogOut(w, identity.pending, newAnonymous, Resume, io)
    else LogIn(w, identity.pending.value, Resume, io)
  }

  /** The instance under construction is dropped unless every step succeeds. */
  function Abandon(w: World, o: Outcome): (World, Outcome) {
    (if w.memory.Some? then Die(w) else w, o)
  }

  function NewInstance(user: UserId, newAnonymous: UserId): Memory {
    Memory(if IsBlank(user) then newAnonymous else user, None, false, false)
  }

  function Begin(w: World, m: Memory): World {
    Record(Update(w, m), true, Began(m.user))
  }

  function Configure(w: World, explicitId: Option<UserId>, newAnonymous: UserId, io: ConfigureIo): (World, Outcome) {
    if w.memory.Some? then (w, Done)
    else if Load(w.file).LoadFailed? then (w, Failed)
    else
      var persisted := Load(w.file).identity;
      var explicitUser := if explicitId.Some? && explicitId.value != "" then explicitId else None;
      match ResolveInitialIdentity(explicitUser, persisted, newAnonymous)
      case Conflict => (w, Failed)
      case Initial(user, resume) =>
        if !io.setupSucceeds then (w, Failed)
        else
          var started := Begin(w, NewInstance(user, newAnonymous));
          var (resumed, o1) :=
            if resume && persisted.Some? then ResumeTransition(started, persisted.value, newAnonymous, io.identity)
            else (started, Done);
          if !o1.Done? || resumed.memory.None? then Abandon(resumed, o1)
          else
            var (file, o2) := Persist(resumed.file, Settled(resumed.memory.value.user), io.settle);
            if o2.Done? then (resumed.(file := file), Done) else Abandon(resumed.(file := file), o2)
  }

  // ---- Receipts ------------------------------------------------------------------------

  predicate ReceiptOperationsReady(m: Memory) {
    !m.transitionPending && !m.recoveryRequired
  }

  /** What a store call leaves behind: nothing, a transaction, or a purchase to be decided later. */
  datatype Creation = Nothing | Created | Deferred

  /** However it ends, an unsuccessful store call may leave any of the three. */
  datatype StoreCall = Returns | Errs(leaves: Creation) | DiesAt(leaves: Creation)

  datatype FinishCall = Finishes | FinishErrs(finished: bool) | FinishDies(finished: bool)

  function FinishOutcome(f: FinishCall): Outcome {
    match f case Finishes => Done case FinishErrs(_) => Failed case FinishDies(_) => Died
  }

  predicate Removes(f: FinishCall) {
    f.Finishes? || f.finished
  }

  datatype PostIo = PostIo(post: Reply, finish: FinishCall)

  /** `ts.filter { it.token != token }`. */
  function WithoutToken(ts: seq<Transaction>, token: Token): (r: seq<Transaction>)
    ensures forall t :: t in r <==> t in ts && t.token != token
  {
    if ts == [] then []
    else (if ts[0].token == token then [] else [ts[0]]) + WithoutToken(ts[1..], token)
  }

  /** `ts.filter { it.token == token }`. */
  function WithToken(ts: seq<Transaction>, token: Token): (r: seq<Transaction>)
    ensures forall t :: t in r <==> t in ts && t.token == token
  {
    if ts == [] then []
    else (if ts[0].token == token then [ts[0]] else []) + WithToken(ts[1..], token)
  }

  function MarkFinished(ts: seq<Transaction>): (r: seq<Transaction>)
    ensures |r| == |ts|
    ensures forall i :: 0 <= i < |ts| ==> r[i] == ts[i].(finished := true)
  {
    seq(|ts|, i requires 0 <= i < |ts| => ts[i].(finished := true))
  }

  /** Finishing takes a transaction out of the queue into the history; a second time it does nothing. */
  function FinishIn(store: Store, token: Token): Store {
    store.(queue := WithoutToken(store.queue, token),
           history := store.history + MarkFinished(WithToken(store.queue, token)))
  }

  /** A deferred purchase is approved and becomes an unfinished transaction. */
  function ApproveIn(store: Store, token: Token): Store {
    store.(queue := store.queue + WithToken(store.awaiting, token), awaiting := WithoutToken(store.awaiting, token))
  }

  /** Post one receipt and, once accepted, finish its transaction. */
  function PostThenFinish(w: World, user: UserId, t: Transaction, io: PostIo): (World, Outcome) {
    var posted := Record(w, Reached(io.post), Posted(t, user, Accepts(io.post)));
    if !ReplyOutcome(io.post).Done? then Stop(posted, ReplyOutcome(io.post))
    else
      var asked := Record(posted, true, FinishRequested(t.token, user));
      var finished := if Removes(io.finish) then asked.(store := FinishIn(asked.store, t.token)) else asked;
      Stop(finished, FinishOutcome(io.finish))
  }

  /**
   * `inputAccepted` stands for the package lookup and the input checks before the store opens;
   * `mismatchedPlan` for a receipt that shows an earlier base plan, which is reported as an
   * error after everything else has gone through.
   */
  datatype PurchaseIo = PurchaseIo(inputAccepted: bool, token: Token, store: StoreCall, receipt: PostIo, mismatchedPlan: bool)

  function Leave(store: Store, t: Transaction, left: Creation): Store {
    match left
    case Nothing => store
    case Created => store.(queue := store.queue + [t])
    case Deferred => store.(awaiting := store.awaiting + [t])
  }

  function Left(call: StoreCall): Creation {
    if call.Returns? then Created else call.leaves
  }

  function Purchase(w: World, io: PurchaseIo): (World, Outcome) {
    if w.memory.None? || !ReceiptOperationsReady(w.memory.value) || !io.inputAccepted then (w, Failed)
    else
      var m := w.memory.value.(recoveryRequired := true);
      var launched := Transaction(io.token, Some(Launch(m.user, |w.log|, Left(io.store).Deferred?)), false);
      var armed := Record(Update(w, m), true, Launched(io.token, m.user));
      var stored := armed.(store := Leave(armed.store, launched, Left(io.store)));
      if !io.store.Returns? then Stop(stored, if io.store.DiesAt? then Died else Failed)
      else
        var (after, o) := PostThenFinish(stored, m.user, launched, io.receipt);
        if !o.Done? then (after, o)
        else (Update(after, m.(recoveryRequired := false)), if io.mismatchedPlan then Failed else Done)
  }

  datatype SyncMode = ExplicitRestore | FullQueue | PendingQueue

  /** Only the pending-queue query leaves finished history out. */
  function Queried(store: Store, mode: SyncMode): seq<Transaction> {
    if mode.PendingQueue? then store.queue else store.queue + store.history
  }

  /** `arrivals` are transactions the store delivers after the query; `receipts` is used in query order. */
  datatype SyncIo = SyncIo(query: Reply, arrivals: seq<Token>, refresh: Reply, receipts: seq<PostIo>)

  function Delivered(tokens: seq<Token>): (r: seq<Transaction>)
    ensures forall t :: t in r ==> t.launch.None? && !t.finished
  {
    seq(|tokens|, i requires 0 <= i < |tokens| => Transaction(tokens[i], None, false))
  }

  function ReceiptIo(io: seq<PostIo>, i: nat): PostIo {
    if i < |io| then io[i] else PostIo(Answered(true), Finishes)
  }

  /** The loop over the queried transactions: how far it got, and how it ended. */
  function PostAll(w: World, user: UserId, purchases: seq<Transaction>, io: seq<PostIo>): (World, nat, Outcome)
    decreases |purchases|
  {
    if purchases == [] then (w, 0, Done)
    else
      var (before, done, o) := PostAll(w, user, purchases[..|purchases| - 1], io);
      if !o.Done? then (before, done, o)
      else
        var (after, last) := PostThenFinish(before, user, purchases[|purchases| - 1], ReceiptIo(io, |purchases| - 1));
        (after, if last.Done? then done + 1 else done, last)
  }

  function Sync(w: World, mode: SyncMode, io: SyncIo): (World, Outcome) {
    if w.memory.None? || w.memory.value.transitionPending then (w, Failed)
    else
      var m := if mode.ExplicitRestore? then w.memory.value else w.memory.value.(recoveryRequired := true);
      var armed := Update(w, m);
      if !ReplyOutcome(io.query).Done? then Stop(armed, ReplyOutcome(io.query))
      else
        var purchases := Queried(w.store, mode);
        var queried := armed.(store := w.store.(queue := w.store.queue + Delivered(io.arrivals)));
        if purchases == [] then
          var fetched := Record(queried, Reached(io.refresh), Fetched(m.user));
          if !ReplyOutcome(io.refresh).Done? then Stop(fetched, ReplyOutcome(io.refresh))
          else (Update(fetched, m.(recoveryRequired := false)), Done)
        else
          var required := Update(queried, m.(recoveryRequired := true));
          var (after, done, o) := PostAll(required, m.user, purchases, io.receipts);
          if !o.Done? then (after, o)
          else (Update(after, m.(recoveryRequired := false)), Done)
  }
}
