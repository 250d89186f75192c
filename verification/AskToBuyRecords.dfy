/** What is recorded of each purchase attempt, and exactly when an attempt is recorded twice. */
module AskToBuyRecords {
  import opened Options
  import opened PurchaseTypes
  import opened Histories
  import opened AskToBuyModel
  import opened AskToBuyInvariant
  import opened AskToBuyTheorems
  import opened AskToBuyResults

  /** The record a step put into the journal, and the attempt whose context it is. */
  function Wrote(s: System, op: Op): Option<Promotion> {
    if Next(s, op).file == s.file then None
    else if op.Advances? && op.task < |s.tasks| && s.tasks[op.task].phase.Storing? then
      var claim := s.tasks[op.task].phase.claim;
      Some(Promotion(claim.attemptId, s.tasks[op.task].identity, claim.receiptContext))
    else if op.Continues? then FlowRecord(s)
    else None
  }

  predicate Records(s: System, op: Op, a: AttemptId) {
    Wrote(s, op).Some? && Wrote(s, op).value.attemptId == a
  }

  lemma WritersOnly(s: System, op: Op)
    requires Wrote(s, op).Some?
    ensures op.Advances? || op.Continues?
    ensures op.Advances? ==> About(s, op.task, Wrote(s, op).value)
    ensures op.Continues? ==> MayStore(s, Wrote(s, op).value.attemptId)
  {
  }

  /** The attempt can be claimed. */
  predicate Cached(s: System, a: AttemptId) {
    exists p :: p in s.cache.contexts && s.cache.contexts[p].attemptId == a
  }

  /** Task `u` is about to write this record. */
  predicate About(s: System, u: TaskId, x: Promotion) {
    && u < |s.tasks| && s.tasks[u].phase.Storing?
    && var claim := s.tasks[u].phase.claim;
       x == Promotion(claim.attemptId, s.tasks[u].identity, claim.receiptContext)
  }

  /** A sync that failed to store attempt `a` puts it back into the cache. */
  predicate GivesBackAt(s: System, op: Op, a: AttemptId) {
    && op.Advances? && op.task < |s.tasks| && s.tasks[op.task].phase.Completing?
    && !s.tasks[op.task].phase.stored && s.tasks[op.task].phase.claim.attemptId == a
    && !Cached(s, a) && Cached(Next(s, op), a)
  }

  /** A sync claims a cached attempt in order to write this record. */
  predicate ClaimsAt(s: System, op: Op, x: Promotion) {
    && op.Advances? && op.task < |s.tasks| && s.tasks[op.task].phase.Acquiring?
    && Cached(s, x.attemptId) && About(Next(s, op), op.task, x)
  }

  lemma OnlyClaimsStore(s: System, op: Op, u: TaskId, x: Promotion)
    requires !About(s, u, x) && About(Next(s, op), u, x)
    ensures ClaimsAt(s, op, x) && op.task == u
  {
    assert op.Advances? && op.task < |s.tasks|;
    ClaimsFromCache(s, op.task, op.io, u, x);
  }

  lemma ClaimsFromCache(s: System, t: TaskId, io: JournalIo, u: TaskId, x: Promotion)
    requires t < |s.tasks| && !About(s, u, x) && About(Advance(s, t, io), u, x)
    ensures t == u && s.tasks[t].phase.Acquiring? && Cached(s, x.attemptId)
  {
    match s.tasks[t].phase
    case Acquiring => AcquireClaims(s, t, u, x);
    case Completing(_, _) =>
    case _ => OthersStay(s, t, io, u, x);
  }

  lemma AcquireClaims(s: System, t: TaskId, u: TaskId, x: Promotion)
    requires t < |s.tasks| && s.tasks[t].phase.Acquiring? && !About(s, u, x) && About(Acquire(s, t), u, x)
    ensures t == u && Cached(s, x.attemptId)
  {
  }

  lemma OthersStay(s: System, t: TaskId, io: JournalIo, u: TaskId, x: Promotion)
    requires t < |s.tasks| && !s.tasks[t].phase.Acquiring? && !s.tasks[t].phase.Completing? && !About(s, u, x)
    ensures !About(Advance(s, t, io), u, x)
  {
    if Runnable(s, t) { OnlyOneMoves(s, t, io); }
  }

  /** Every cached attempt was cached before, or is `a`. */
  predicate AtMostBack(before: map<ProductId, PendingContext>, after: map<ProductId, PendingContext>, a: AttemptId) {
    forall p :: p in after ==> after[p].attemptId == a || (p in before && before[p] == after[p])
  }

  lemma RollbackBrings(c: Cache, claim: Claim)
    ensures AtMostBack(c.contexts, Rollback(c, claim).0.contexts, claim.attemptId)
  {
  }

  lemma CommitBringsNothing(c: Cache, claim: Claim, a: AttemptId)
    ensures AtMostBack(c.contexts, Commit(c, claim).0.contexts, a)
  {
  }

  lemma AdvanceBrings(s: System, t: TaskId, io: JournalIo, a: AttemptId)
    requires t < |s.tasks|
    requires s.tasks[t].phase.Completing? && !s.tasks[t].phase.stored ==> s.tasks[t].phase.claim.attemptId == a
    ensures AtMostBack(s.cache.contexts, Advance(s, t, io).cache.contexts, a)
  {
    match s.tasks[t].phase
    case Completing(claim, stored) =>
      RollbackBrings(s.cache, claim);
      CommitBringsNothing(s.cache, claim, a);
    case _ =>
  }

  lemma StillCached(before: map<ProductId, PendingContext>, after: map<ProductId, PendingContext>, p: ProductId, b: AttemptId, a: AttemptId)
    requires AtMostBack(before, after, b) && p in after && after[p].attemptId == a && a != b
    ensures p in before && before[p].attemptId == a
  {
  }

  lemma OnlyRollbacksGiveBack(s: System, op: Op, a: AttemptId)
    requires a < |s.attempts| && !Cached(s, a) && Cached(Next(s, op), a)
    ensures GivesBackAt(s, op, a)
  {
    var p :| p in Next(s, op).cache.contexts && Next(s, op).cache.contexts[p].attemptId == a;
    if op.Advances? && op.task < |s.tasks| {
      var task := s.tasks[op.task];
      var b := if task.phase.Completing? && !task.phase.stored then task.phase.claim.attemptId else a + 1;
      AdvanceBrings(s, op.task, op.io, b);
      if b != a { StillCached(s.cache.contexts, Next(s, op).cache.contexts, p, b, a); }
    }
  }

  /** An attempt on its way into the journal is out of the cache, and no other task has it. */
  lemma HeldAlone(s: System, t: TaskId)
    requires Inv(s) && t < |s.tasks| && ClaimOf(s.tasks[t]).Some?
    ensures var a := ClaimOf(s.tasks[t]).value.attemptId;
            && a < |s.attempts| && !Cached(s, a)
            && forall u :: 0 <= u < |s.tasks| && u != t && ClaimOf(s.tasks[u]).Some? ==> ClaimOf(s.tasks[u]).value.attemptId != a
  {
    LiveClaim(s, t);
    forall u | 0 <= u < |s.tasks| && u != t && ClaimOf(s.tasks[u]).Some?
      ensures ClaimOf(s.tasks[u]).value.attemptId != ClaimOf(s.tasks[t]).value.attemptId
    {
      LiveClaim(s, u);
    }
    assert HeldOk(s.cache, |s.attempts|, s.tasks[t].identity);
  }

  // ---- The flow under way --------------------------------------------------------------

  /** The purchase under way is the one that cached attempt `a`. */
  predicate Owns(flow: Option<Flow>, a: AttemptId) {
    flow.Some? && flow.value.own.Some? && flow.value.own.value.attemptId == a
  }

  /** And it may still store its transaction. */
  predicate MayStore(s: System, a: AttemptId) {
    Owns(s.flow, a) && !s.flow.value.phase.Dropping?
  }

  /** The attempt is nobody's latest: no rollback can bring it back. */
  predicate Gone(c: Cache, a: AttemptId) {
    forall p :: p in c.latest ==> c.latest[p] != a
  }

  /** The flow's own attempt is as it was cached, and latest for no other product. */
  predicate FlowOk(flow: Option<Flow>, attempts: seq<Attempt>, latest: map<ProductId, AttemptId>) {
    flow.Some? && flow.value.own.Some? ==>
      var own := flow.value.own.value;
      && own.attemptId < |attempts|
      && attempts[own.attemptId].productId == flow.value.productId
      && attempts[own.attemptId].receiptContext == own.receiptContext
      && forall p :: p in latest && latest[p] == own.attemptId ==> p == flow.value.productId
  }

  predicate Shrinks(before: map<ProductId, AttemptId>, after: map<ProductId, AttemptId>) {
    forall p :: p in after ==> p in before && before[p] == after[p]
  }

  lemma CompletionShrinks(c: Cache, claim: Claim)
    ensures Shrinks(c.latest, Commit(c, claim).0.latest) && Shrinks(c.latest, Rollback(c, claim).0.latest)
  {
  }

  lemma AdvanceShrinks(s: System, t: TaskId, io: JournalIo)
    requires t < |s.tasks|
    ensures Shrinks(s.cache.latest, Advance(s, t, io).cache.latest)
  {
    match s.tasks[t].phase
    case Completing(claim, _) => CompletionShrinks(s.cache, claim);
    case _ =>
  }

  lemma FlowFrame(flow: Option<Flow>, attempts: seq<Attempt>, before: map<ProductId, AttemptId>, after: map<ProductId, AttemptId>)
    requires FlowOk(flow, attempts, before) && Shrinks(before, after)
    ensures FlowOk(flow, attempts, after)
  {
  }

  lemma PurchaseFlow(s: System, context: Option<ReceiptContext>, p: ProductId, date: int)
    requires CacheOk(s.cache, |s.attempts|, s.retired) && FlowOk(s.flow, s.attempts, s.cache.latest)
    ensures var m := Purchase(s, context, p, date); FlowOk(m.flow, m.attempts, m.cache.latest)
  {
  }

  lemma ContinueFlow(s: System, io: JournalIo)
    requires FlowOk(s.flow, s.attempts, s.cache.latest)
    ensures var m := Continue(s, io); FlowOk(m.flow, m.attempts, m.cache.latest)
  {
  }

  lemma FlowStep(s: System, op: Op)
    requires CacheOk(s.cache, |s.attempts|, s.retired) && FlowOk(s.flow, s.attempts, s.cache.latest)
    ensures var m := Next(s, op); FlowOk(m.flow, m.attempts, m.cache.latest)
  {
    match op
    case Purchases(context, p, date) => PurchaseFlow(s, context, p, date);
    case Continues(io) => ContinueFlow(s, io);
    case Advances(t, io) =>
      if t < |s.tasks| {
        AdvanceShrinks(s, t, io);
        FlowFrame(s.flow, s.attempts, s.cache.latest, Advance(s, t, io).cache.latest);
      }
    case _ =>
  }

  /** An attempt that is gone stays gone, and no later flow is its own. */
  lemma GoneStep(s: System, op: Op, a: AttemptId)
    requires a < |s.attempts| && Gone(s.cache, a)
    ensures Gone(Next(s, op).cache, a)
  {
    if op.Advances? && op.task < |s.tasks| { AdvanceShrinks(s, op.task, op.io); }
  }

  lemma FlowsAreNew(s: System, op: Op, a: AttemptId)
    requires a < |s.attempts| && MayStore(Next(s, op), a)
    ensures MayStore(s, a)
  {
  }

  /** A flow that has stored stays as it is until it drops its product or the process ends. */
  lemma DroppingStep(s: System, op: Op, a: AttemptId)
    requires FlowOk(s.flow, s.attempts, s.cache.latest) && Owns(s.flow, a) && s.flow.value.phase.Dropping?
    ensures Next(s, op).flow == s.flow || Gone(Next(s, op).cache, a)
  {
  }

  /** A direct store ends the flow's chance to store, and goes on to drop if it was not told of a failure. */
  lemma DirectStore(s: System, op: Op)
    requires op.Continues? && Wrote(s, op).Some?
    ensures var a := Wrote(s, op).value.attemptId;
            && !MayStore(Next(s, op), a)
            && (op.io != WriteFails(true) ==> Owns(Next(s, op).flow, a) && Next(s, op).flow.value.phase.Dropping?)
  {
  }

  /** The state before operation `n`. */
  function At(f: JournalFile, ops: seq<Op>, n: nat): System
    requires n <= |ops|
  {
    Run(Start(f), ops[..n])
  }

  lemma StepAt(f: JournalFile, ops: seq<Op>, n: nat)
    requires n < |ops|
    ensures At(f, ops, n + 1) == Next(At(f, ops, n), ops[n])
  {
    assert ops[..n + 1][..n] == ops[..n];
  }

  /** After a write that landed and was reported as failed, its task still has the attempt to itself. */
  lemma HalfWritten(s: System, op: Op, after: System)
    requires Inv(after) && after == Next(s, op) && op.Advances? && Wrote(s, op).Some? && op.io == WriteFails(true)
    ensures var a := Wrote(s, op).value.attemptId;
            && a < |after.attempts| && !Cached(after, a)
            && forall u, x: Promotion :: x.attemptId == a ==> !About(after, u, x)
  {
    ThrowingWrite(s, op, after);
    HeldAlone(after, op.task);
  }

  lemma ThrowingWrite(s: System, op: Op, after: System)
    requires after == Next(s, op) && op.Advances? && Wrote(s, op).Some? && op.io == WriteFails(true)
    ensures op.task < |after.tasks| && after.tasks[op.task].phase.Completing?
    ensures after.tasks[op.task].phase.claim.attemptId == Wrote(s, op).value.attemptId
  {
  }

  /** The states of a run: the first component of each pair of neighbours steps to the second. */
  ghost predicate Trace(states: seq<System>, ops: seq<Op>) {
    && |states| == |ops| + 1
    && forall i, j :: 0 <= i < j < |states| && j == i + 1 ==> Steps(states[i], ops[i], states[j])
  }

  predicate Steps(s: System, op: Op, after: System) {
    after == Next(s, op)
  }

  lemma ClaimBefore(states: seq<System>, ops: seq<Op>, n: nat, m: nat, u: TaskId, x: Promotion) returns (q: nat)
    requires Trace(states, ops) && n < m <= |ops| && !About(states[n], u, x) && About(states[m], u, x)
    ensures n <= q < m && ops[q].Advances? && ops[q].task == u && ClaimsAt(states[q], ops[q], x)
  {
    var h := seq(m - n + 1, i requires 0 <= i <= m - n => About(states[n + i], u, x));
    var k := LastRise(h);
    q := n + k;
    assert h[k + 1];
    assert Steps(states[q], ops[q], states[q + 1]);
    OnlyClaimsStore(states[q], ops[q], u, x);
  }

  lemma GivenBackBefore(states: seq<System>, ops: seq<Op>, n: nat, m: nat, a: AttemptId) returns (r: nat)
    requires Trace(states, ops) && n < m <= |ops| && !Cached(states[n], a) && Cached(states[m], a)
    requires forall i :: n <= i <= m ==> a < |states[i].attempts|
    ensures n <= r < m && GivesBackAt(states[r], ops[r], a)
  {
    var h := seq(m - n + 1, i requires 0 <= i <= m - n => Cached(states[n + i], a));
    var k := LastRise(h);
    r := n + k;
    assert h[k + 1];
    assert Steps(states[r], ops[r], states[r + 1]);
    OnlyRollbacksGiveBack(states[r], ops[r], a);
  }

  function StatesOf(f: JournalFile, ops: seq<Op>): (r: seq<System>)
    ensures |r| == |ops| + 1
    ensures forall n :: 0 <= n <= |ops| ==> r[n] == At(f, ops, n)
  {
    seq(|ops| + 1, n requires 0 <= n <= |ops| => At(f, ops, n))
  }

  lemma StatesTrace(f: JournalFile, ops: seq<Op>)
    ensures Trace(StatesOf(f, ops), ops)
  {
    var states := StatesOf(f, ops);
    forall i, j | 0 <= i < j < |states| && j == i + 1 ensures Steps(states[i], ops[i], states[j]) {
      StepAt(f, ops, i);
    }
  }

  ghost predicate AttemptsGrow(states: seq<System>) {
    forall i, j :: 0 <= i <= j < |states| ==> |states[i].attempts| <= |states[j].attempts|
  }

  ghost predicate FlowsOk(states: seq<System>) {
    forall i :: 0 <= i < |states| ==> FlowOk(states[i].flow, states[i].attempts, states[i].cache.latest)
  }

  /** What holds along a run. */
  ghost predicate SoundRun(states: seq<System>, ops: seq<Op>) {
    && Trace(states, ops) && AttemptsGrow(states) && FlowsOk(states)
    && (forall i :: 0 <= i < |states| ==> AttemptsOk(states[i].cache, |states[i].attempts|, states[i].retired))
    && states[0].tasks == []
  }

  lemma {:induction false} FlowAlong(f: JournalFile, ops: seq<Op>)
    ensures var s := Run(Start(f), ops); FlowOk(s.flow, s.attempts, s.cache.latest)
  {
    if ops != [] {
      FlowAlong(f, ops[..|ops| - 1]);
      InvFromStart(f, ops[..|ops| - 1]);
      FlowStep(Run(Start(f), ops[..|ops| - 1]), ops[|ops| - 1]);
    }
  }

  lemma AttemptsAt(f: JournalFile, ops: seq<Op>, n: nat, m: nat)
    requires n <= m <= |ops|
    ensures |At(f, ops, n).attempts| <= |At(f, ops, m).attempts|
  {
    assert ops[..m][..n] == ops[..n];
    HistoryGrowsAlong(Start(f), ops[..m], n);
  }

  lemma RunsAreSound(f: JournalFile, ops: seq<Op>)
    ensures SoundRun(StatesOf(f, ops), ops)
  {
    var states := StatesOf(f, ops);
    StatesTrace(f, ops);
    forall i | 0 <= i < |states|
      ensures AttemptsOk(states[i].cache, |states[i].attempts|, states[i].retired)
      ensures FlowOk(states[i].flow, states[i].attempts, states[i].cache.latest)
    {
      InvFromStart(f, ops[..i]);
      FlowAlong(f, ops[..i]);
    }
    forall i, j | 0 <= i <= j < |states| ensures |states[i].attempts| <= |states[j].attempts| {
      AttemptsAt(f, ops, i, j);
    }
    assert ops[..0] == [];
  }

  lemma MayStoreBefore(states: seq<System>, ops: seq<Op>, k: nat, m: nat, a: AttemptId)
    requires Trace(states, ops) && AttemptsGrow(states)
    requires k <= m <= |ops| && a < |states[k].attempts| && MayStore(states[m], a)
    ensures MayStore(states[k], a)
  {
    if k < m && !MayStore(states[k], a) {
      var h := seq(m - k + 1, i requires 0 <= i <= m - k => MayStore(states[k + i], a));
      var rise := LastRise(h);
      var r := k + rise;
      assert h[r - k + 1] && Steps(states[r], ops[r], states[r + 1]);
      assert |states[k].attempts| <= |states[r].attempts|;
      FlowsAreNew(states[r], ops[r], a);
    }
  }

  predicate StillOrGone(s: System, flow: Option<Flow>, a: AttemptId) {
    s.flow == flow || Gone(s.cache, a)
  }

  lemma StillOrGoneStep(s: System, op: Op, flow: Option<Flow>, a: AttemptId)
    requires FlowOk(s.flow, s.attempts, s.cache.latest) && a < |s.attempts| && Owns(flow, a) && flow.value.phase.Dropping?
    requires StillOrGone(s, flow, a)
    ensures StillOrGone(Next(s, op), flow, a)
  {
    if Gone(s.cache, a) { GoneStep(s, op, a); } else { DroppingStep(s, op, a); }
  }

  lemma {:induction false} DroppingUntilGone(states: seq<System>, ops: seq<Op>, k: nat, m: nat, flow: Option<Flow>, a: AttemptId)
    requires Trace(states, ops) && AttemptsGrow(states) && FlowsOk(states) && k <= m <= |ops| && a < |states[k].attempts|
    requires Owns(flow, a) && flow.value.phase.Dropping? && StillOrGone(states[k], flow, a)
    ensures StillOrGone(states[m], flow, a)
    decreases m - k
  {
    if k < m {
      assert Steps(states[k], ops[k], states[k + 1]);
      assert |states[k].attempts| <= |states[k + 1].attempts|;
      StillOrGoneStep(states[k], ops[k], flow, a);
      DroppingUntilGone(states, ops, k + 1, m, flow, a);
    }
  }

  lemma CachedIsLatest(s: System, a: AttemptId)
    requires AttemptsOk(s.cache, |s.attempts|, s.retired) && Cached(s, a)
    ensures !Gone(s.cache, a) && a < |s.attempts|
  {
    var p :| p in s.cache.contexts && s.cache.contexts[p].attemptId == a;
    assert CachedOk(s.cache, p);
  }

  // ---- The ways to a second record -----------------------------------------------------

  /** A sync claims the attempt of the purchase that is still under way, in order to write `x`. */
  predicate ClaimsOwn(s: System, op: Op, x: Promotion) {
    ClaimsAt(s, op, x) && Owns(s.flow, x.attemptId)
  }

  /** The write at `n` replaced the file and threw; a claim after it took the attempt from the cache for the write at `m`. */
  predicate AfterThrow(states: seq<System>, ops: seq<Op>, n: nat, q: nat, m: nat) {
    && n < q < m < |ops| < |states|
    && Wrote(states[n], ops[n]).Some? && ops[n].io == WriteFails(true)
    && ops[m].Advances? && Wrote(states[m], ops[m]).Some?
    && var x := Wrote(states[m], ops[m]).value;
       && Records(states[n], ops[n], x.attemptId) && ClaimsAt(states[q], ops[q], x)
       && (ops[n].Advances? ==> exists r :: n < r < q && GivesBackAt(states[r], ops[r], x.attemptId))
  }

  /** One record is the purchase's own, the other a sync's whose claim fell into that purchase. */
  predicate DuringFlow(states: seq<System>, ops: seq<Op>, n: nat, q: nat, m: nat) {
    && n < m < |ops| < |states| && q < m
    && ops[n].Continues? != ops[m].Continues?
    && var own, sync := if ops[n].Continues? then n else m, if ops[n].Continues? then m else n;
       && q < sync && Wrote(states[own], ops[own]).Some? && Wrote(states[sync], ops[sync]).Some?
       && ClaimsOwn(states[q], ops[q], Wrote(states[sync], ops[sync]).value)
       && Owns(states[own].flow, Wrote(states[sync], ops[sync]).value.attemptId)
  }

  lemma OwnRecordIsOnce(states: seq<System>, ops: seq<Op>, n: nat, m: nat, a: AttemptId)
    requires SoundRun(states, ops) && n < m < |ops|
    requires Records(states[n], ops[n], a) && Records(states[m], ops[m], a) && ops[n].Continues?
    ensures !ops[m].Continues?
  {
    WritersOnly(states[n], ops[n]);
    WritersOnly(states[m], ops[m]);
    assert Steps(states[n], ops[n], states[n + 1]);
    DirectStore(states[n], ops[n]);
    assert |states[n].attempts| <= |states[n + 1].attempts|;
    if ops[m].Continues? { MayStoreBefore(states, ops, n + 1, m, a); }
  }

  /** The claim behind a sync's record. */
  lemma ClaimBehind(states: seq<System>, ops: seq<Op>, m: nat, x: Promotion) returns (q: nat)
    requires SoundRun(states, ops) && m < |ops| && ops[m].Advances? && Wrote(states[m], ops[m]) == Some(x)
    ensures q < m && ops[q].Advances? && ClaimsAt(states[q], ops[q], x)
    ensures x.attemptId < |states[q].attempts| && !Gone(states[q].cache, x.attemptId)
  {
    WritersOnly(states[m], ops[m]);
    assert !About(states[0], ops[m].task, x);
    q := ClaimBefore(states, ops, 0, m, ops[m].task, x);
    CachedIsLatest(states[q], x.attemptId);
  }

  /** First a sync's record, then the purchase's own. */
  lemma SyncThenOwn(states: seq<System>, ops: seq<Op>, n: nat, m: nat, a: AttemptId) returns (q: nat)
    requires SoundRun(states, ops) && n < m < |ops|
    requires Records(states[n], ops[n], a) && Records(states[m], ops[m], a) && ops[n].Advances? && ops[m].Continues?
    ensures q < m && DuringFlow(states, ops, n, q, m)
  {
    q := ClaimBehind(states, ops, n, Wrote(states[n], ops[n]).value);
    WritersOnly(states[m], ops[m]);
    MayStoreBefore(states, ops, q, m, a);
  }

  /** A claim of an attempt that its purchase records at `n` falls into that purchase, or follows a write that threw. */
  lemma ClaimedInFlow(states: seq<System>, ops: seq<Op>, n: nat, q: nat, a: AttemptId)
    requires SoundRun(states, ops) && n < |ops| && q < |ops| && q != n && Records(states[n], ops[n], a) && ops[n].Continues?
    requires a < |states[q].attempts| && !Gone(states[q].cache, a)
    ensures Owns(states[q].flow, a) || (n < q && ops[n].io == WriteFails(true))
  {
    WritersOnly(states[n], ops[n]);
    if q < n {
      MayStoreBefore(states, ops, q, n, a);
    } else if ops[n].io != WriteFails(true) {
      assert Steps(states[n], ops[n], states[n + 1]);
      DirectStore(states[n], ops[n]);
      assert |states[n].attempts| <= |states[n + 1].attempts|;
      DroppingUntilGone(states, ops, n + 1, q, states[n + 1].flow, a);
    }
  }

  /** First the purchase's own record, then a sync's. */
  lemma OwnThenSync(states: seq<System>, ops: seq<Op>, n: nat, m: nat, a: AttemptId) returns (q: nat)
    requires SoundRun(states, ops) && n < m < |ops|
    requires Records(states[n], ops[n], a) && Records(states[m], ops[m], a) && ops[n].Continues? && ops[m].Advances?
    ensures q < m && (DuringFlow(states, ops, n, q, m) || AfterThrow(states, ops, n, q, m))
  {
    q := ClaimBehind(states, ops, m, Wrote(states[m], ops[m]).value);
    ClaimedInFlow(states, ops, n, q, a);
    assert Owns(states[n].flow, a) by { WritersOnly(states[n], ops[n]); }
  }

  /** A sync's write that was not reported as failed is a promotion; no other sync writes the attempt after it. */
  lemma PromotedIsLast(f: JournalFile, ops: seq<Op>, n: nat, m: nat)
    requires n < m < |ops| && ops[n].Advances? && ops[m].Advances? && ops[n].io != WriteFails(true)
    requires Wrote(At(f, ops, n), ops[n]).Some? && Wrote(At(f, ops, m), ops[m]).Some?
    ensures Wrote(At(f, ops, n), ops[n]).value.attemptId != Wrote(At(f, ops, m), ops[m]).value.attemptId
  {
    var early, late := At(f, ops, n), At(f, ops, m);
    WrittenIsPromoted(early, ops[n]);
    StepAt(f, ops, n);
    assert ops[..m][..n + 1] == ops[..n + 1];
    HistoryGrowsAlong(Start(f), ops[..m], n + 1);
    assert late.promoted[|early.promoted|] == Wrote(early, ops[n]).value;
    InvFromStart(f, ops[..m]);
    assert SpentTask(late.promoted, late.tasks[ops[m].task]);
  }

  lemma WrittenIsPromoted(s: System, op: Op)
    requires op.Advances? && Wrote(s, op).Some? && op.io != WriteFails(true)
    ensures Next(s, op).promoted == s.promoted + [Wrote(s, op).value]
  {
  }

  lemma SyncThenSync(states: seq<System>, ops: seq<Op>, n: nat, m: nat, a: AttemptId) returns (q: nat)
    requires SoundRun(states, ops) && n < m < |ops|
    requires Records(states[n], ops[n], a) && Records(states[m], ops[m], a) && ops[n].Advances? && ops[m].Advances?
    requires ops[n].io == WriteFails(true) && Inv(states[n + 1])
    ensures AfterThrow(states, ops, n, q, m)
  {
    var x := Wrote(states[m], ops[m]).value;
    WritersOnly(states[m], ops[m]);
    assert Steps(states[n], ops[n], states[n + 1]);
    HalfWritten(states[n], ops[n], states[n + 1]);
    q := ClaimBefore(states, ops, n + 1, m, ops[m].task, x);
    forall i | n + 1 <= i <= q ensures a < |states[i].attempts| {
      assert |states[n + 1].attempts| <= |states[i].attempts|;
    }
    var r := GivenBackBefore(states, ops, n + 1, q, a);
    assert n < r < q && GivesBackAt(states[r], ops[r], x.attemptId);
  }

  /** One of the ways in which the records at `n` and `m` come to be of one attempt. */
  predicate TwiceBy(states: seq<System>, ops: seq<Op>, n: nat, q: nat, m: nat) {
    DuringFlow(states, ops, n, q, m) || AfterThrow(states, ops, n, q, m)
  }

  /**
   * In every run, counting the records of syncs and of purchase flows alike: steps `n` and `m`
   * record one attempt exactly if either the write at `n` replaced the file and threw, and a
   * sync claimed the attempt from the cache after that; or one of the two is the purchase's
   * own, and the other a sync's that claimed the attempt while that purchase was under way,
   * before its own store or between that store and the drop behind it.
   */
  lemma RecordedTwiceExactly(f: JournalFile, ops: seq<Op>, n: nat, m: nat)
    requires n < m < |ops|
    ensures (exists a :: Records(At(f, ops, n), ops[n], a) && Records(At(f, ops, m), ops[m], a))
            <==> exists q: nat :: TwiceBy(StatesOf(f, ops), ops, n, q, m)
  {
    var states := StatesOf(f, ops);
    if a :| Records(At(f, ops, n), ops[n], a) && Records(At(f, ops, m), ops[m], a) {
      RecordedTwiceOnlyTheseWays(f, ops, n, m, a);
    }
    if q: nat :| TwiceBy(states, ops, n, q, m) {
      TwiceBySame(states, ops, n, q, m);
    }
  }

  lemma TwiceBySame(states: seq<System>, ops: seq<Op>, n: nat, q: nat, m: nat)
    requires TwiceBy(states, ops, n, q, m)
    ensures exists a :: Records(states[n], ops[n], a) && Records(states[m], ops[m], a)
  {
    var a := Wrote(states[m], ops[m]).value.attemptId;
    assert Records(states[n], ops[n], a);
  }

  lemma RecordedTwiceOnlyTheseWays(f: JournalFile, ops: seq<Op>, n: nat, m: nat, a: AttemptId)
    requires n < m < |ops| && Records(At(f, ops, n), ops[n], a) && Records(At(f, ops, m), ops[m], a)
    ensures exists q: nat :: TwiceBy(StatesOf(f, ops), ops, n, q, m)
  {
    var states := StatesOf(f, ops);
    RunsAreSound(f, ops);
    WritersOnly(states[n], ops[n]);
    WritersOnly(states[m], ops[m]);
    var q;
    if ops[n].Continues? {
      OwnRecordIsOnce(states, ops, n, m, a);
      q := OwnThenSync(states, ops, n, m, a);
    } else if ops[m].Continues? {
      q := SyncThenOwn(states, ops, n, m, a);
    } else {
      if ops[n].io != WriteFails(true) { PromotedIsLast(f, ops, n, m); }
      InvFromStart(f, ops[..n + 1]);
      q := SyncThenSync(states, ops, n, m, a);
    }
    assert TwiceBy(states, ops, n, q, m);
  }

  /** No write of this attempt replaced the file and threw. */
  ghost predicate WritesHonestly(f: JournalFile, ops: seq<Op>, a: AttemptId) {
    forall k :: 0 <= k < |ops| && Records(At(f, ops, k), ops[k], a) ==> ops[k].io != WriteFails(true)
  }

  /** No sync claims this attempt while its own purchase is under way. */
  ghost predicate ClaimedAfterFlow(f: JournalFile, ops: seq<Op>, a: AttemptId) {
    forall k, x :: 0 <= k < |ops| && ClaimsOwn(At(f, ops, k), ops[k], x) ==> x.attemptId != a
  }

  /**
   * So an attempt is recorded at most once, by syncs and its own purchase together and across
   * failed promotions, if none of its writes lands and throws, and no sync claims it while its
   * purchase is under way. The runs below show that neither can be dropped.
   */
  lemma RecordedAtMostOnce(f: JournalFile, ops: seq<Op>, n: nat, m: nat, a: AttemptId)
    requires n < m < |ops| && WritesHonestly(f, ops, a) && ClaimedAfterFlow(f, ops, a)
    ensures !(Records(At(f, ops, n), ops[n], a) && Records(At(f, ops, m), ops[m], a))
  {
    if Records(At(f, ops, n), ops[n], a) && Records(At(f, ops, m), ops[m], a) {
      NoWay(f, ops, n, m, a);
      RecordedTwiceOnlyTheseWays(f, ops, n, m, a);
    }
  }

  lemma NoWay(f: JournalFile, ops: seq<Op>, n: nat, m: nat, a: AttemptId)
    requires n < m < |ops| && WritesHonestly(f, ops, a) && ClaimedAfterFlow(f, ops, a)
    requires Records(At(f, ops, n), ops[n], a) && Records(At(f, ops, m), ops[m], a)
    ensures forall q: nat :: !TwiceBy(StatesOf(f, ops), ops, n, q, m)
  {
  }

  /** The journal can be read and has room for these transactions. */
  predicate RoomFor(f: JournalFile, ids: set<TransactionId>) {
    Load(f).Some? && |Load(f).value| + |ids| <= MAXIMUM_TRANSACTIONS && forall id :: id in ids ==> id !in Load(f).value
  }

  /** A claim that meets no failure is recorded, whatever was recorded of its attempt before. */
  lemma ClaimIsRecorded(s: System, t: TaskId)
    requires t < |s.tasks| && s.tasks[t].phase.Storing? && RoomFor(s.file, {s.tasks[t].identity.transactionId})
    ensures Records(s, Advances(t, Works), s.tasks[t].phase.claim.attemptId)
  {
    var i, context := s.tasks[t].identity, s.tasks[t].phase.claim.receiptContext;
    StoreRecords(s.file, Metadata(i, context));
  }

  lemma StoreRecords(f: JournalFile, m: Metadata)
    requires RoomFor(f, {m.identity.transactionId})
    ensures
      var ts := Load(f).value[m.identity.transactionId := m];
      && Store(f, m, Works) == (Holds(ts), true) && Holds(ts) != f && |ts| == |Load(f).value| + 1
  {
    assert m.identity.transactionId in Load(f).value[m.identity.transactionId := m];
  }

  /**
   * And the guard is needed in every state: a claim of the attempt whose purchase is still at
   * its sheet doubles the record as soon as that purchase succeeds, with no failure at all.
   */
  lemma OwnClaimDoubles(s: System, t: TaskId, id: TransactionId, token: Token)
    requires t < |s.tasks| && s.tasks[t].phase.Storing? && Owns(s.flow, s.tasks[t].phase.claim.attemptId)
    requires s.flow.value.phase.Open? && id != s.tasks[t].identity.transactionId
    requires RoomFor(s.file, {s.tasks[t].identity.transactionId, id})
    ensures
      var a := s.tasks[t].phase.claim.attemptId;
      var made := Next(Next(s, Advances(t, Works)), Settles(Made(id, token)));
      Records(s, Advances(t, Works), a) && Records(made, Continues(Works), a)
  {
    var i, claim := s.tasks[t].identity, s.tasks[t].phase.claim;
    var ids := {i.transactionId, id};
    assert |ids| == 2 by { assert ids - {id} == {i.transactionId}; }
    ClaimIsRecorded(s, t);
    StoreRecords(s.file, Metadata(i, claim.receiptContext));
    var promoted := Next(s, Advances(t, Works));
    assert promoted.file == Store(s.file, Metadata(i, claim.receiptContext), Works).0 && promoted.flow == s.flow;
    assert RoomFor(promoted.file, {id});
    PurchaseIsRecorded(promoted, id, token, claim.attemptId);
  }

  lemma PurchaseIsRecorded(s: System, id: TransactionId, token: Token, a: AttemptId)
    requires Owns(s.flow, a) && s.flow.value.phase.Open? && RoomFor(s.file, {id})
    ensures Records(Next(s, Settles(Made(id, token))), Continues(Works), a)
  {
    var made := Next(s, Settles(Made(id, token)));
    assert made == s.(flow := made.flow) && FlowRecord(made).Some?;
    StoreRecords(s.file, Metadata(FlowRecord(made).value.identity, FlowRecord(made).value.context));
  }

  /** Every record, of a sync or of a purchase, carries its own attempt's context, for that attempt's product. */
  lemma RecordsKeepTheirContext(f: JournalFile, ops: seq<Op>, k: nat)
    requires k < |ops| && Wrote(At(f, ops, k), ops[k]).Some?
    ensures PromotionOrigin(At(f, ops, k).attempts, Wrote(At(f, ops, k), ops[k]).value)
  {
    var s := At(f, ops, k);
    WritersOnly(s, ops[k]);
    FlowAlong(f, ops[..k]);
    PromotionsKeepTheirContext(f, ops[..k]);
    InvFromStart(f, ops[..k]);
    if ops[k].Advances? { assert TaskOrigin(s.attempts, s.tasks[ops[k].task]); }
  }

  /** No write that is told to have failed has replaced the file. */
  predicate HonestWrites(ops: seq<Op>) {
    forall k :: 0 <= k < |ops| && (ops[k].Advances? || ops[k].Continues?) ==> ops[k].io != WriteFails(true)
  }

  // ---- Each way happens ----------------------------------------------------------------

  lemma RunSnoc(s: System, ops: seq<Op>, op: Op)
    ensures Run(s, ops + [op]) == Next(Run(s, ops), op)
  {
    assert (ops + [op])[..|ops|] == ops;
  }

  function OnePurchase(p: ProductId, context: ReceiptContext): System {
    Start(NoFile).(
      cache := Cache(map[p := PendingContext(0, context, 0)], map[p := 0], map[], map[]),
      attempts := [Attempt(p, context, 0)])
  }

  /** After a failed promotion for `i`: the attempt is cached again, whatever the journal holds. */
  function GivenBack(i: Identity, context: ReceiptContext, file: JournalFile): System {
    OnePurchase(i.productId, context).(file := file, tasks := [SyncTask(i, 0, None, Finished(Threw))])
  }

  /** The cache while the attempt is claimed for `i`. */
  function Claimed(s: System, t: TaskId, i: Identity, context: ReceiptContext): System
    requires t < |s.tasks|
  {
    Move(s.(cache := Cache(map[], map[i.productId := 0], map[i := 0], map[]), owners := map[i := t]),
         t, Storing(Claim(i, 0, context, 0)))
  }

  /** A sync that finds nothing durable takes the cached attempt in two steps. */
  lemma TakesAttempt(s: System, t: TaskId, i: Identity, context: ReceiptContext, ops: seq<Op>, reached: System)
    requires Run(s, ops) == reached && t < |reached.tasks| && reached.tasks[t] == SyncTask(i, 0, None, Reading)
    requires reached.cache == OnePurchase(i.productId, context).cache && reached.owners == map[]
    requires Load(reached.file).Some? && i.transactionId !in Load(reached.file).value
    ensures Run(s, ops + [Advances(t, Works)] + [Advances(t, Works)]) == Claimed(reached, t, i, context)
  {
    var acquiring := Move(reached, t, Acquiring);
    RunSnoc(s, ops, Advances(t, Works));
    assert Next(reached, Advances(t, Works)) == acquiring;
    RunSnoc(s, ops + [Advances(t, Works)], Advances(t, Works));
    AcquiresAttempt(acquiring, t, i, context);
    assert Claimed(acquiring, t, i, context) == Claimed(reached, t, i, context);
  }

  lemma AcquiresAttempt(s: System, t: TaskId, i: Identity, context: ReceiptContext)
    requires t < |s.tasks| && s.tasks[t] == SyncTask(i, 0, None, Acquiring)
    requires s.cache == OnePurchase(i.productId, context).cache && s.owners == map[]
    ensures Next(s, Advances(t, Works)) == Claimed(s, t, i, context)
  {
    assert s.cache.contexts - {i.productId} == map[];
  }

  lemma GivesBack(i: Identity, context: ReceiptContext, file: JournalFile)
    ensures
      var s := Claimed(OnePurchase(i.productId, context).(tasks := [SyncTask(i, 0, None, Reading)]), 0, i, context);
      Next(Move(s.(file := file), 0, Completing(Claim(i, 0, context, 0), false)), Advances(0, Works)) == GivenBack(i, context, file)
  {
    assert map[i := 0] - {i} == map[];
  }

  /** One deferred purchase; a promotion whose write lands although it is reported to have failed. */
  function HalfWrite(i: Identity, context: ReceiptContext): seq<Op> {
    DeferredStart(i, context) + [Advances(0, Works)] + [Advances(0, Works)] + [Advances(0, WriteFails(true))] + [Advances(0, Works)]
  }

  function DeferredStart(i: Identity, context: ReceiptContext): seq<Op> {
    [Purchases(Some(context), i.productId, 0)] + [Settles(Deferred)] + [Begins(i, 0, None)]
  }

  lemma DeferredReached(i: Identity, context: ReceiptContext)
    ensures Run(Start(NoFile), DeferredStart(i, context)) == OnePurchase(i.productId, context).(tasks := [SyncTask(i, 0, None, Reading)])
  {
    var bought := [Purchases(Some(context), i.productId, 0)];
    Bought(i.productId, context);
    RunSnoc(Start(NoFile), bought, Settles(Deferred));
    RunSnoc(Start(NoFile), bought + [Settles(Deferred)], Begins(i, 0, None));
  }

  lemma HalfWriteReached(i: Identity, context: ReceiptContext)
    ensures Run(Start(NoFile), HalfWrite(i, context)) == GivenBack(i, context, Holds(map[i.transactionId := Metadata(i, context)]))
  {
    var s0, ops := Start(NoFile), DeferredStart(i, context) + [Advances(0, Works)] + [Advances(0, Works)];
    DeferredClaimed(i, context);
    RunSnoc(s0, ops, Advances(0, WriteFails(true)));
    RunSnoc(s0, ops + [Advances(0, WriteFails(true))], Advances(0, Works));
    ThrowsAndGivesBack(i, context);
  }

  lemma DeferredClaimed(i: Identity, context: ReceiptContext)
    ensures Run(Start(NoFile), DeferredStart(i, context) + [Advances(0, Works)] + [Advances(0, Works)])
            == Claimed(OnePurchase(i.productId, context).(tasks := [SyncTask(i, 0, None, Reading)]), 0, i, context)
  {
    DeferredReached(i, context);
    TakesAttempt(Start(NoFile), 0, i, context, DeferredStart(i, context), OnePurchase(i.productId, context).(tasks := [SyncTask(i, 0, None, Reading)]));
  }

  lemma ThrowsAndGivesBack(i: Identity, context: ReceiptContext)
    ensures
      var s := Claimed(OnePurchase(i.productId, context).(tasks := [SyncTask(i, 0, None, Reading)]), 0, i, context);
      Next(Next(s, Advances(0, WriteFails(true))), Advances(0, Works))
      == GivenBack(i, context, Holds(map[i.transactionId := Metadata(i, context)]))
  {
    GivesBack(i, context, Holds(map[i.transactionId := Metadata(i, context)]));
  }

  /** The purchase at its sheet. */
  function AtSheet(p: ProductId, context: ReceiptContext): System {
    OnePurchase(p, context).(flow := Some(Flow(p, Some(Own(0, context)), Open)))
  }

  lemma Bought(p: ProductId, context: ReceiptContext)
    ensures Run(Start(NoFile), [Purchases(Some(context), p, 0)]) == AtSheet(p, context)
  {
    RunSnoc(Start(NoFile), [], Purchases(Some(context), p, 0));
    assert [] + [Purchases(Some(context), p, 0)] == [Purchases(Some(context), p, 0)];
  }

  /** A promotion that throws after replacing the file, and gives the attempt back, lets one attempt be recorded for two transactions. */
  lemma HalfWriteCanDouble(i: Identity, j: Identity, context: ReceiptContext)
    requires i.productId == j.productId && i.transactionId != j.transactionId
    ensures
      var ops := HalfWrite(i, context) + [Begins(j, 0, None)] + [Advances(1, Works)] + [Advances(1, Works)] + [Advances(1, Works)];
      var s := Run(Start(NoFile), ops);
      && |s.attempts| == 1
      && DurableIn(Contents(s.file), i, context) && DurableIn(Contents(s.file), j, context)
  {
    var back := GivenBack(i, context, Holds(map[i.transactionId := Metadata(i, context)]));
    var begun := back.(tasks := back.tasks + [SyncTask(j, 0, None, Reading)]);
    HalfWriteClaimed(i, j, context, begun);
    SyncWrites(Claimed(begun, 1, j, context), 1, j, i, context);
  }

  lemma HalfWriteClaimed(i: Identity, j: Identity, context: ReceiptContext, begun: System)
    requires i.productId == j.productId && i.transactionId != j.transactionId
    requires var back := GivenBack(i, context, Holds(map[i.transactionId := Metadata(i, context)]));
             begun == back.(tasks := back.tasks + [SyncTask(j, 0, None, Reading)])
    ensures Run(Start(NoFile), HalfWrite(i, context) + [Begins(j, 0, None)] + [Advances(1, Works)] + [Advances(1, Works)] + [Advances(1, Works)])
            == Next(Claimed(begun, 1, j, context), Advances(1, Works))
  {
    var s0, ops := Start(NoFile), HalfWrite(i, context) + [Begins(j, 0, None)];
    HalfWriteReached(i, context);
    RunSnoc(s0, HalfWrite(i, context), Begins(j, 0, None));
    TakesAttempt(s0, 1, j, context, ops, begun);
    RunSnoc(s0, ops + [Advances(1, Works)] + [Advances(1, Works)], Advances(1, Works));
  }

  /** `i` is approved while the purchase is at its sheet; then the purchase succeeds as `j`. */
  function OpenPurchase(i: Identity, j: Identity, context: ReceiptContext): seq<Op> {
    OpenStart(i, context) + [Advances(0, Works)] + [Advances(0, Works)]
    + [Settles(Made(j.transactionId, j.purchaseToken))] + [Continues(Works)]
  }

  function OpenStart(i: Identity, context: ReceiptContext): seq<Op> {
    [Purchases(Some(context), i.productId, 0)] + [Begins(i, 0, None)] + [Advances(0, Works)] + [Advances(0, Works)]
  }

  /**
   * Without any failure: a sync for another transaction of the product takes the context of a
   * purchase that is still open, and the purchase then records it for its own.
   */
  lemma OpenPurchaseCanDouble(i: Identity, j: Identity, context: ReceiptContext)
    requires i.productId == j.productId && i.transactionId != j.transactionId
    ensures HonestWrites(OpenPurchase(i, j, context))
    ensures
      var s := Run(Start(NoFile), OpenPurchase(i, j, context));
      && |s.attempts| == 1
      && DurableIn(Contents(s.file), i, context) && DurableIn(Contents(s.file), j, context)
  {
    OpenReached(i, j, context);
    OpenHonest(i, j, context);
    var begun := AtSheet(i.productId, context).(tasks := [SyncTask(i, 0, None, Reading)]);
    PromotesThenStores(Claimed(begun, 0, i, context), i, j, context);
  }

  lemma OpenHonest(i: Identity, j: Identity, context: ReceiptContext)
    ensures HonestWrites(OpenPurchase(i, j, context))
  {
  }

  lemma OpenReached(i: Identity, j: Identity, context: ReceiptContext)
    ensures
      var claimed := Claimed(AtSheet(i.productId, context).(tasks := [SyncTask(i, 0, None, Reading)]), 0, i, context);
      Run(Start(NoFile), OpenPurchase(i, j, context)) ==
      Next(Next(Next(Next(claimed, Advances(0, Works)), Advances(0, Works)),
                Settles(Made(j.transactionId, j.purchaseToken))), Continues(Works))
  {
    OpenClaimed(i, context);
    RunFourMore(Start(NoFile), OpenStart(i, context), Advances(0, Works), Advances(0, Works),
                Settles(Made(j.transactionId, j.purchaseToken)), Continues(Works));
  }

  lemma RunFourMore(s: System, ops: seq<Op>, a: Op, b: Op, c: Op, d: Op)
    ensures Run(s, ops + [a] + [b] + [c] + [d]) == Next(Next(Next(Next(Run(s, ops), a), b), c), d)
  {
    RunSnoc(s, ops, a);
    RunSnoc(s, ops + [a], b);
    RunSnoc(s, ops + [a] + [b], c);
    RunSnoc(s, ops + [a] + [b] + [c], d);
  }

  lemma OpenClaimed(i: Identity, context: ReceiptContext)
    ensures Run(Start(NoFile), OpenStart(i, context))
            == Claimed(AtSheet(i.productId, context).(tasks := [SyncTask(i, 0, None, Reading)]), 0, i, context)
  {
    var bought := [Purchases(Some(context), i.productId, 0)];
    Bought(i.productId, context);
    RunSnoc(Start(NoFile), bought, Begins(i, 0, None));
    TakesAttempt(Start(NoFile), 0, i, context, bought + [Begins(i, 0, None)],
                 AtSheet(i.productId, context).(tasks := [SyncTask(i, 0, None, Reading)]));
  }

  lemma PromotesThenStores(s: System, i: Identity, j: Identity, context: ReceiptContext)
    requires i.productId == j.productId && i.transactionId != j.transactionId && s.file == NoFile
    requires |s.tasks| == 1 && s.tasks[0] == SyncTask(i, 0, None, Storing(Claim(i, 0, context, 0)))
    requires s.flow == Some(Flow(i.productId, Some(Own(0, context)), Open))
    ensures
      var promoted := Next(Next(s, Advances(0, Works)), Advances(0, Works));
      var m := Next(Next(promoted, Settles(Made(j.transactionId, j.purchaseToken))), Continues(Works));
      && m.attempts == s.attempts
      && DurableIn(Contents(m.file), i, context) && DurableIn(Contents(m.file), j, context)
  {
    var written := Next(s, Advances(0, Works));
    PromoteWrites(s, i, context);
    var promoted := Complete(written, 0, Claim(i, 0, context, 0), true);
    assert Next(written, Advances(0, Works)) == promoted;
    StoresAfter(promoted, i, j, context);
  }

  lemma PromoteWrites(s: System, i: Identity, context: ReceiptContext)
    requires s.file == NoFile && |s.tasks| == 1 && s.tasks[0] == SyncTask(i, 0, None, Storing(Claim(i, 0, context, 0)))
    ensures var m := Next(s, Advances(0, Works));
            && m.file == Holds(map[i.transactionId := Metadata(i, context)]) && m.flow == s.flow && m.attempts == s.attempts
            && |m.tasks| == 1 && m.tasks[0].phase == Completing(Claim(i, 0, context, 0), true)
  {
  }

  lemma StoresAfter(s: System, i: Identity, j: Identity, context: ReceiptContext)
    requires i.productId == j.productId && i.transactionId != j.transactionId
    requires s.file == Holds(map[i.transactionId := Metadata(i, context)])
    requires s.flow == Some(Flow(i.productId, Some(Own(0, context)), Open))
    ensures
      var m := Next(Next(s, Settles(Made(j.transactionId, j.purchaseToken))), Continues(Works));
      && m.attempts == s.attempts
      && DurableIn(Contents(m.file), i, context) && DurableIn(Contents(m.file), j, context)
  {
    var made := Next(s, Settles(Made(j.transactionId, j.purchaseToken)));
    assert made == s.(flow := made.flow);
    assert FlowRecord(made) == Some(Promotion(0, j, context));
    ContinueStores(made, j, context);
    TwoFit(i, j, context);
  }

  lemma ContinueStores(s: System, j: Identity, context: ReceiptContext)
    requires FlowRecord(s) == Some(Promotion(0, j, context))
    ensures Next(s, Continues(Works)).file == Store(s.file, Metadata(j, context), Works).0
    ensures Next(s, Continues(Works)).attempts == s.attempts
  {
  }

  lemma TwoFit(i: Identity, j: Identity, context: ReceiptContext)
    requires i.transactionId != j.transactionId
    ensures
      var (file, ok) := Store(Holds(map[i.transactionId := Metadata(i, context)]), Metadata(j, context), Works);
      ok && DurableIn(Contents(file), i, context) && DurableIn(Contents(file), j, context)
  {
    StoreKeepsRecords(Holds(map[i.transactionId := Metadata(i, context)]), Metadata(j, context), Works);
  }

  /** The purchase succeeds as `j` and stores; before its product is dropped, a sync for `i` takes the context. */
  function StoredPurchase(i: Identity, j: Identity, context: ReceiptContext, io: JournalIo): seq<Op> {
    StoredStart(i, j, context, io) + [Advances(0, Works)] + [Advances(0, Works)] + [Advances(0, Works)]
  }

  function StoredStart(i: Identity, j: Identity, context: ReceiptContext, io: JournalIo): seq<Op> {
    [Purchases(Some(context), i.productId, 0)] + [Settles(Made(j.transactionId, j.purchaseToken))] + [Continues(io)] + [Begins(i, 0, None)]
  }

  /**
   * The same in the other order: the purchase's own store comes first, works or replaces the
   * file and throws, and a sync claims the attempt before (or, having thrown, without) its drop.
   */
  lemma StoredPurchaseCanDouble(i: Identity, j: Identity, context: ReceiptContext, io: JournalIo)
    requires i.productId == j.productId && i.transactionId != j.transactionId && (io == Works || io == WriteFails(true))
    ensures io == Works ==> HonestWrites(StoredPurchase(i, j, context, io))
    ensures
      var s := Run(Start(NoFile), StoredPurchase(i, j, context, io));
      && |s.attempts| == 1
      && DurableIn(Contents(s.file), i, context) && DurableIn(Contents(s.file), j, context)
  {
    StoredHonest(i, j, context, io);
    StoredClaimed(i, j, context, io);
    SyncWrites(Claimed(StoredBegun(i, j, context, io), 0, i, context), 0, i, j, context);
  }

  lemma StoredHonest(i: Identity, j: Identity, context: ReceiptContext, io: JournalIo)
    ensures io == Works ==> HonestWrites(StoredPurchase(i, j, context, io))
  {
  }

  lemma StoredClaimed(i: Identity, j: Identity, context: ReceiptContext, io: JournalIo)
    requires i.productId == j.productId && i.transactionId != j.transactionId && (io == Works || io == WriteFails(true))
    ensures Run(Start(NoFile), StoredPurchase(i, j, context, io))
            == Next(Claimed(StoredBegun(i, j, context, io), 0, i, context), Advances(0, Works))
  {
    var s0, ops := Start(NoFile), StoredStart(i, j, context, io);
    StoredReached(i, j, context, io);
    TakesAttempt(s0, 0, i, context, ops, StoredBegun(i, j, context, io));
    RunSnoc(s0, ops + [Advances(0, Works)] + [Advances(0, Works)], Advances(0, Works));
  }

  /** A claim of attempt 0 for `i` is written beside the record of `j`. */
  lemma SyncWrites(s: System, t: TaskId, i: Identity, j: Identity, context: ReceiptContext)
    requires i.transactionId != j.transactionId && s.file == Holds(map[j.transactionId := Metadata(j, context)])
    requires t < |s.tasks| && s.tasks[t] == SyncTask(i, 0, None, Storing(Claim(i, 0, context, 0)))
    ensures var m := Next(s, Advances(t, Works));
            && m.attempts == s.attempts
            && DurableIn(Contents(m.file), i, context) && DurableIn(Contents(m.file), j, context)
  {
    StoreKeepsRecords(s.file, Metadata(i, context), Works);
  }

  /** The purchase has stored its record, and a sync for `i` has begun. */
  function StoredBegun(i: Identity, j: Identity, context: ReceiptContext, io: JournalIo): System {
    OnePurchase(i.productId, context).(
      file := Holds(map[j.transactionId := Metadata(j, context)]),
      flow := if io == Works then Some(Flow(i.productId, Some(Own(0, context)), Dropping)) else None,
      tasks := [SyncTask(i, 0, None, Reading)])
  }

  lemma StoredReached(i: Identity, j: Identity, context: ReceiptContext, io: JournalIo)
    requires i.productId == j.productId && (io == Works || io == WriteFails(true))
    ensures Run(Start(NoFile), StoredStart(i, j, context, io)) == StoredBegun(i, j, context, io)
  {
    var s0, bought := Start(NoFile), [Purchases(Some(context), i.productId, 0)];
    var made := Settles(Made(j.transactionId, j.purchaseToken));
    Bought(i.productId, context);
    RunSnoc(s0, bought, made);
    RunSnoc(s0, bought + [made], Continues(io));
    RunSnoc(s0, bought + [made] + [Continues(io)], Begins(i, 0, None));
    StoresOwn(i, j, context, io);
  }

  lemma StoresOwn(i: Identity, j: Identity, context: ReceiptContext, io: JournalIo)
    requires i.productId == j.productId && (io == Works || io == WriteFails(true))
    ensures Next(Next(AtSheet(i.productId, context), Settles(Made(j.transactionId, j.purchaseToken))), Continues(io))
            == StoredBegun(i, j, context, io).(tasks := [])
  {
    var made := Next(AtSheet(i.productId, context), Settles(Made(j.transactionId, j.purchaseToken)));
    assert made == AtSheet(i.productId, context).(flow := Some(Flow(i.productId, Some(Own(0, context)), Recording(j.transactionId, j.purchaseToken))));
    StoresMade(made, j, context, io);
  }

  lemma StoresMade(made: System, j: Identity, context: ReceiptContext, io: JournalIo)
    requires made.flow == Some(Flow(j.productId, Some(Own(0, context)), Recording(j.transactionId, j.purchaseToken)))
    requires made.file == NoFile && (io == Works || io == WriteFails(true))
    ensures Next(made, Continues(io)) == made.(
      file := Holds(map[j.transactionId := Metadata(j, context)]),
      flow := if io == Works then Some(Flow(j.productId, Some(Own(0, context)), Dropping)) else None)
  {
    assert j == Identity(j.transactionId, j.purchaseToken, j.productId);
    assert map[][j.transactionId := Metadata(j, context)] == map[j.transactionId := Metadata(j, context)];
  }
}
