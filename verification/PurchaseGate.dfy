/** The gate that holds back transaction updates while an explicit purchase runs. */
module PurchaseGateModel {
  import opened Options
  import opened Histories

  type TransactionId = string

  const MAXIMUM_REMEMBERED: nat := 32

  /**
   * `noted`, `used` and `evicted` are history: the ids put on the remembered list, taken off
   * it by an update, and pushed out of it.
   */
  datatype Gate = Gate(
    inFlight: bool,
    deferred: set<TransactionId>,
    remembered: seq<TransactionId>,
    noted: multiset<TransactionId>,
    used: multiset<TransactionId>,
    evicted: multiset<TransactionId>)

  const START := Gate(false, {}, [], multiset{}, multiset{}, multiset{})

  function Without(s: seq<TransactionId>, id: TransactionId): (r: seq<TransactionId>)
    requires id in s
    ensures multiset(s) == multiset(r) + multiset{id}
  {
    assert s == [s[0]] + s[1..];
    if s[0] == id then s[1..] else [s[0]] + Without(s[1..], id)
  }

  function Begin(g: Gate): (Gate, bool) {
    if g.inFlight then (g, false) else (g.(inFlight := true), true)
  }

  function ShouldNotifyUpdate(g: Gate, id: TransactionId): (Gate, bool) {
    if id in g.remembered then
      (g.(remembered := Without(g.remembered, id), used := g.used + multiset{id}), false)
    else if g.inFlight then (g.(deferred := g.deferred + {id}), false)
    else (g, true)
  }

  function Remember(g: Gate, id: TransactionId): Gate {
    var longer := g.remembered + [id];
    var excess := if |longer| > MAXIMUM_REMEMBERED then |longer| - MAXIMUM_REMEMBERED else 0;
    g.(remembered := longer[excess..], noted := g.noted + multiset{id}, evicted := g.evicted + multiset(longer[..excess]))
  }

  function End(g: Gate, explicit: Option<TransactionId>): (Gate, bool) {
    var rest := if explicit.Some? then g.deferred - {explicit.value} else g.deferred;
    var noted := if explicit.Some? && explicit.value !in g.deferred then Remember(g, explicit.value) else g;
    (noted.(inFlight := false, deferred := {}), rest != {})
  }

  datatype Op = Begins | Updates(id: TransactionId) | Ends(explicit: Option<TransactionId>)

  function Next(g: Gate, op: Op): Gate {
    match op
    case Begins => Begin(g).0
    case Updates(id) => ShouldNotifyUpdate(g, id).0
    case Ends(explicit) => End(g, explicit).0
  }

  function Run(g: Gate, ops: seq<Op>): Gate {
    if ops == [] then g else Next(Run(g, ops[..|ops| - 1]), ops[|ops| - 1])
  }

  // ---- No update is lost ---------------------------------------------------------------

  predicate Inv(g: Gate) {
    && (!g.inFlight ==> g.deferred == {})
    && Accounted(g)
  }

  predicate Accounted(g: Gate) {
    |g.remembered| <= 32 && g.noted == g.used + g.evicted + multiset(g.remembered)
  }

  lemma RememberAccounts(g: Gate, id: TransactionId)
    requires Accounted(g)
    ensures Accounted(Remember(g, id))
  {
    var longer := g.remembered + [id];
    var excess := if |longer| > MAXIMUM_REMEMBERED then |longer| - MAXIMUM_REMEMBERED else 0;
    assert multiset(longer) == multiset(g.remembered) + multiset{id};
    CutMultiset(longer, excess);
  }

  lemma CutMultiset(s: seq<TransactionId>, n: nat)
    requires n <= |s|
    ensures multiset(s) == multiset(s[..n]) + multiset(s[n..])
  {
    assert s == s[..n] + s[n..];
  }

  lemma UseAccounts(g: Gate, id: TransactionId)
    requires Accounted(g) && id in g.remembered
    ensures Accounted(ShouldNotifyUpdate(g, id).0)
  {
    var rest := Without(g.remembered, id);
    assert multiset(g.remembered) == multiset(rest) + multiset{id};
    assert |multiset(g.remembered)| == |multiset(rest)| + 1;
  }

  lemma StepKeeps(g: Gate, op: Op)
    requires Inv(g)
    ensures Inv(Next(g, op))
  {
    match op
    case Begins =>
    case Updates(id) => if id in g.remembered { UseAccounts(g, id); }
    case Ends(explicit) => if explicit.Some? { RememberAccounts(g, explicit.value); }
  }

  /**
   * Nothing is held back while no purchase runs, the remembered list is bounded, and every
   * entry noted is still on it, pushed out, or used up by exactly one update.
   */
  lemma {:induction false} GateAccounts(ops: seq<Op>)
    ensures Inv(Run(START, ops))
  {
    if ops != [] {
      GateAccounts(ops[..|ops| - 1]);
      StepKeeps(Run(START, ops[..|ops| - 1]), ops[|ops| - 1]);
    }
  }

  predicate NoEnd(ops: seq<Op>) {
    forall k :: 0 <= k < |ops| ==> !ops[k].Ends?
  }

  lemma {:induction false} DeferredUntilEnd(g: Gate, ops: seq<Op>, id: TransactionId)
    requires g.inFlight && id in g.deferred && NoEnd(ops)
    ensures Run(g, ops).inFlight && id in Run(g, ops).deferred
  {
    if ops != [] {
      DeferredUntilEnd(g, ops[..|ops| - 1], id);
    }
  }

  lemma EndAnswers(g: Gate, id: TransactionId, explicit: Option<TransactionId>)
    requires id in g.deferred
    ensures End(g, explicit).1 || explicit == Some(id)
  {
    assert explicit != Some(id) ==> id in (if explicit.Some? then g.deferred - {explicit.value} else g.deferred);
  }

  /** An end asks for a notification only if another transaction was deferred. */
  lemma EndNotifiesForOthers(g: Gate, explicit: Option<TransactionId>)
    requires End(g, explicit).1
    ensures exists id :: id in g.deferred && explicit != Some(id)
  {
    var rest := if explicit.Some? then g.deferred - {explicit.value} else g.deferred;
    var id :| id in rest;
    assert id in g.deferred && explicit != Some(id);
  }

  // ---- What is let through -------------------------------------------------------------

  /** A purchase has begun and not ended. */
  predicate PurchaseOpen(ops: seq<Op>) {
    ops != [] &&
    match ops[|ops| - 1]
    case Begins => true
    case Ends(_) => false
    case Updates(_) => PurchaseOpen(ops[..|ops| - 1])
  }

  lemma {:induction false} OpenIsInFlight(ops: seq<Op>)
    ensures Run(START, ops).inFlight == PurchaseOpen(ops)
  {
    if ops != [] { OpenIsInFlight(ops[..|ops| - 1]); }
  }

  /** In every run a purchase is admitted exactly if none is open. */
  lemma AdmitsExactly(ops: seq<Op>)
    ensures Begin(Run(START, ops)).1 <==> !PurchaseOpen(ops)
  {
    OpenIsInFlight(ops);
  }

  /** The entries are those that these ends named, in order. */
  predicate NamedBy(ops: seq<Op>, origins: seq<nat>, remembered: seq<TransactionId>) {
    |origins| == |remembered| && forall k :: 0 <= k < |origins| ==> origins[k] < |ops| && ops[origins[k]] == Ends(Some(remembered[k]))
  }

  lemma OriginsName(ops: seq<Op>)
    ensures NamedBy(ops, Origins(ops), Run(START, ops).remembered)
  {
    OriginsAlong(ops);
    OkNames(Origins(ops), Run(START, ops).remembered, ops);
  }

  lemma OkNames(origins: seq<nat>, remembered: seq<TransactionId>, ops: seq<Op>)
    requires OriginsOk(origins, remembered, ops)
    ensures NamedBy(ops, origins, remembered)
  {
    forall k | 0 <= k < |origins| ensures origins[k] < |ops| && ops[origins[k]] == Ends(Some(remembered[k])) {
      assert NotedAt(ops, origins[k], remembered[k]);
    }
  }

  /** Some end that named the id is still on the list. */
  predicate LeftOver(ops: seq<Op>, origins: seq<nat>, id: TransactionId) {
    exists k :: 0 <= k < |origins| && origins[k] < |ops| && ops[origins[k]] == Ends(Some(id))
  }

  lemma LeftOverIsRemembered(ops: seq<Op>, origins: seq<nat>, remembered: seq<TransactionId>, id: TransactionId)
    requires NamedBy(ops, origins, remembered)
    ensures id in remembered <==> LeftOver(ops, origins, id)
  {
    if id in remembered {
      var k :| 0 <= k < |remembered| && remembered[k] == id;
      assert ops[origins[k]] == Ends(Some(id));
    }
  }

  /** In every run an update is let through exactly if no purchase is open and no end that noted its id is left over. */
  lemma NotifiesExactly(ops: seq<Op>, id: TransactionId)
    ensures ShouldNotifyUpdate(Run(START, ops), id).1 <==> !PurchaseOpen(ops) && !LeftOver(ops, Origins(ops), id)
  {
    OpenIsInFlight(ops);
    OriginsName(ops);
    LeftOverIsRemembered(ops, Origins(ops), Run(START, ops).remembered, id);
  }

  // ---- Every held-back update over a whole run -----------------------------------------

  lemma {:induction false} WithoutAt(s: seq<TransactionId>, id: TransactionId, index: nat)
    requires index < |s| && s[index] == id && id !in s[..index]
    ensures Without(s, id) == s[..index] + s[index + 1..]
  {
    if index > 0 {
      assert s[0] == s[..index][0];
      assert s[1..][..index - 1] == s[1..index] == s[..index][1..];
      WithoutAt(s[1..], id, index - 1);
      assert [s[0]] + (s[1..][..index - 1] + s[1..][index..]) == s[..index] + s[index + 1..];
    }
  }

  function FirstAt(s: seq<TransactionId>, id: TransactionId): (r: nat)
    requires id in s
    ensures r < |s| && s[r] == id && id !in s[..r]
  {
    if s[0] == id then 0
    else
      var later := FirstAt(s[1..], id);
      assert s[..later + 1] == [s[0]] + s[1..][..later];
      later + 1
  }

  /** The end at the end of this run puts its id on the remembered list. */
  predicate Notes(ops: seq<Op>) {
    && ops != [] && ops[|ops| - 1].Ends? && ops[|ops| - 1].explicit.Some?
    && ops[|ops| - 1].explicit.value !in Run(START, ops[..|ops| - 1]).deferred
  }

  /** The update at the end of this run finds its id on the remembered list. */
  predicate Uses(ops: seq<Op>) {
    ops != [] && ops[|ops| - 1].Updates? && ops[|ops| - 1].id in Run(START, ops[..|ops| - 1]).remembered
  }

  /** The update at the end of this run is held back by the purchase in flight. */
  predicate Defers(ops: seq<Op>) {
    && ops != [] && ops[|ops| - 1].Updates? && !Uses(ops) && Run(START, ops[..|ops| - 1]).inFlight
  }

  /** Which operations of the run put on the list what is on it now, oldest first. */
  function Origins(ops: seq<Op>): seq<nat> {
    if ops == [] then []
    else
      var front := ops[..|ops| - 1];
      var origins := Origins(front);
      if Uses(ops) && UsedAt(ops) < |origins| then origins[..UsedAt(ops)] + origins[UsedAt(ops) + 1..]
      else if Notes(ops) then
        if |origins| < 32 then origins + [|front|] else origins[1..] + [|front|]
      else origins
  }

  function UsedAt(ops: seq<Op>): nat
    requires Uses(ops)
  {
    FirstAt(Run(START, ops[..|ops| - 1]).remembered, ops[|ops| - 1].id)
  }

  /** Operation `j` of the run put `id` on the list. */
  predicate NotedAt(ops: seq<Op>, j: nat, id: TransactionId) {
    j < |ops| && Notes(ops[..j + 1]) && ops[j] == Ends(Some(id))
  }

  predicate Increasing(s: seq<nat>) {
    forall i, j :: 0 <= i < j < |s| ==> s[i] < s[j]
  }

  /** The origins are as many as the entries, in order, and each noted its entry. */
  predicate OriginsOk(origins: seq<nat>, remembered: seq<TransactionId>, ops: seq<Op>) {
    && |origins| == |remembered| <= 32 && Increasing(origins)
    && forall i :: 0 <= i < |origins| ==> NotedAt(ops, origins[i], remembered[i])
  }

  lemma NotedAppend(ops: seq<Op>, op: Op, j: nat, id: TransactionId)
    requires NotedAt(ops, j, id)
    ensures NotedAt(ops + [op], j, id)
  {
    assert (ops + [op])[..j + 1] == ops[..j + 1];
  }

  lemma OriginsAppend(origins: seq<nat>, remembered: seq<TransactionId>, ops: seq<Op>, op: Op)
    requires OriginsOk(origins, remembered, ops)
    ensures OriginsOk(origins, remembered, ops + [op])
  {
    forall i | 0 <= i < |origins| ensures NotedAt(ops + [op], origins[i], remembered[i]) {
      NotedAppend(ops, op, origins[i], remembered[i]);
    }
  }

  lemma OriginsWithout(origins: seq<nat>, remembered: seq<TransactionId>, ops: seq<Op>, id: TransactionId)
    requires OriginsOk(origins, remembered, ops) && id in remembered
    ensures var i := FirstAt(remembered, id);
            OriginsOk(origins[..i] + origins[i + 1..], Without(remembered, id), ops)
  {
    var i := FirstAt(remembered, id);
    WithoutAt(remembered, id, i);
    var fewer, kept := origins[..i] + origins[i + 1..], remembered[..i] + remembered[i + 1..];
    forall k | 0 <= k < |fewer| ensures NotedAt(ops, fewer[k], kept[k]) {
      assert NotedAt(ops, origins[if k < i then k else k + 1], remembered[if k < i then k else k + 1]);
    }
    DropKeepsOrder(origins, i);
  }

  lemma DropKeepsOrder(s: seq<nat>, i: nat)
    requires Increasing(s) && i < |s|
    ensures Increasing(s[..i] + s[i + 1..]) && s[i] !in s[..i] + s[i + 1..]
  {
    var fewer := s[..i] + s[i + 1..];
    assert forall k :: 0 <= k < |fewer| ==> fewer[k] == s[if k < i then k else k + 1];
  }

  lemma OriginsRemember(origins: seq<nat>, remembered: seq<TransactionId>, ops: seq<Op>, n: nat, id: TransactionId)
    requires OriginsOk(origins, remembered, ops) && NotedAt(ops, n, id)
    requires forall i :: 0 <= i < |origins| ==> origins[i] < n
    ensures if |origins| < 32 then OriginsOk(origins + [n], remembered + [id], ops)
            else OriginsOk(origins[1..] + [n], remembered[1..] + [id], ops)
  {
  }

  lemma RememberedList(g: Gate, id: TransactionId)
    requires |g.remembered| <= 32
    ensures Remember(g, id).remembered
            == if |g.remembered| < 32 then g.remembered + [id] else g.remembered[1..] + [id]
  {
  }

  lemma OriginsUsed(ops: seq<Op>, front: seq<Op>)
    requires Uses(ops) && front == ops[..|ops| - 1] && OriginsOk(Origins(front), Run(START, front).remembered, ops)
    ensures OriginsOk(Origins(ops), Run(START, ops).remembered, ops)
  {
    OriginsWithout(Origins(front), Run(START, front).remembered, ops, ops[|ops| - 1].id);
  }

  lemma OriginsNoted(ops: seq<Op>, front: seq<Op>)
    requires Notes(ops) && front == ops[..|ops| - 1] && OriginsOk(Origins(front), Run(START, front).remembered, ops)
    requires forall i :: 0 <= i < |Origins(front)| ==> Origins(front)[i] < |front|
    ensures OriginsOk(Origins(ops), Run(START, ops).remembered, ops)
  {
    assert ops[..|front| + 1] == ops;
    OriginsRemember(Origins(front), Run(START, front).remembered, ops, |front|, ops[|front|].explicit.value);
    RememberedList(Run(START, front), ops[|front|].explicit.value);
  }

  lemma OriginsBefore(origins: seq<nat>, remembered: seq<TransactionId>, ops: seq<Op>)
    requires OriginsOk(origins, remembered, ops)
    ensures forall i :: 0 <= i < |origins| ==> origins[i] < |ops|
  {
    forall i | 0 <= i < |origins| ensures origins[i] < |ops| {
      assert NotedAt(ops, origins[i], remembered[i]);
    }
  }

  lemma {:induction false} OriginsAlong(ops: seq<Op>)
    ensures OriginsOk(Origins(ops), Run(START, ops).remembered, ops)
  {
    if ops != [] {
      var front, op := ops[..|ops| - 1], ops[|ops| - 1];
      OriginsAlong(front);
      assert ops == front + [op];
      OriginsAppend(Origins(front), Run(START, front).remembered, front, op);
      OriginsBefore(Origins(front), Run(START, front).remembered, front);
      if Uses(ops) {
        OriginsUsed(ops, front);
      } else if Notes(ops) {
        OriginsNoted(ops, front);
      }
    }
  }

  /** The operation whose remembered entry the update at `k` uses up. */
  function OriginOf(ops: seq<Op>, k: nat): nat
    requires k < |ops| && Uses(ops[..k + 1])
  {
    OriginsAlong(ops[..k]);
    assert ops[..k + 1][..k] == ops[..k];
    Origins(ops[..k])[UsedAt(ops[..k + 1])]
  }

  lemma UseTakes(ops: seq<Op>, k: nat)
    requires k < |ops| && Uses(ops[..k + 1])
    ensures NotedAt(ops, OriginOf(ops, k), ops[k].id) && OriginOf(ops, k) < k
    ensures OriginOf(ops, k) in Origins(ops[..k]) && OriginOf(ops, k) !in Origins(ops[..k + 1])
  {
    assert ops[..k + 1][..k] == ops[..k];
    OriginsAlong(ops[..k]);
    var j := OriginOf(ops, k);
    assert NotedAt(ops[..k], j, ops[k].id);
    assert ops[..k][..j + 1] == ops[..j + 1];
    DropKeepsOrder(Origins(ops[..k]), UsedAt(ops[..k + 1]));
  }

  lemma OriginsGrow(ops: seq<Op>, n: nat)
    requires n < |ops|
    ensures AddsAtMost(Origins(ops[..n]), Origins(ops[..n + 1]), n)
  {
    assert ops[..n + 1][..n] == ops[..n];
  }

  ghost predicate AddsAtMost(before: seq<nat>, after: seq<nat>, i: nat) {
    forall x :: x in after ==> x in before || x == i
  }

  /** Step `i` of a history adds nothing but `i`. */
  ghost predicate OnlyNewest(history: seq<seq<nat>>) {
    forall i, j :: 0 <= i < j < |history| && j == i + 1 ==> AddsAtMost(history[i], history[j], i)
  }

  /** What is off the list never comes back. */
  lemma {:induction false} GoneStaysGone(history: seq<seq<nat>>, j: nat, m: nat, n: nat)
    requires OnlyNewest(history) && j < m <= n < |history| && j !in history[m]
    ensures j !in history[n]
  {
    if m < n {
      GoneStaysGone(history, j, m, n - 1);
      assert AddsAtMost(history[n - 1], history[n], n - 1);
    }
  }

  function History(ops: seq<Op>): (r: seq<seq<nat>>)
    ensures |r| == |ops| + 1
    ensures forall i :: 0 <= i <= |ops| ==> r[i] == Origins(ops[..i])
  {
    seq(|ops| + 1, i requires 0 <= i <= |ops| => Origins(ops[..i]))
  }

  lemma HistoryGrows(ops: seq<Op>)
    ensures OnlyNewest(History(ops))
  {
    var h := History(ops);
    forall i, j | 0 <= i < j < |h| && j == i + 1 ensures AddsAtMost(h[i], h[j], i) {
      OriginsGrow(ops, i);
    }
  }

  /** No two updates use up the same remembered entry. */
  lemma UsesAreDistinct(ops: seq<Op>, k: nat, n: nat)
    requires k < n < |ops| && Uses(ops[..k + 1]) && Uses(ops[..n + 1])
    ensures OriginOf(ops, k) != OriginOf(ops, n)
  {
    UsesApart(ops, History(ops), k, n, OriginOf(ops, k), OriginOf(ops, n));
  }

  lemma UsesApart(ops: seq<Op>, h: seq<seq<nat>>, k: nat, n: nat, j: nat, i: nat)
    requires k < n < |ops| && Uses(ops[..k + 1]) && Uses(ops[..n + 1]) && h == History(ops)
    requires j == OriginOf(ops, k) && i == OriginOf(ops, n)
    ensures j != i
  {
    TakenFrom(ops, h, k, j);
    TakenFrom(ops, h, n, i);
    HistoryGrows(ops);
    GoneStaysGone(h, j, k + 1, n);
  }

  lemma TakenFrom(ops: seq<Op>, h: seq<seq<nat>>, k: nat, j: nat)
    requires k < |ops| && Uses(ops[..k + 1]) && j == OriginOf(ops, k) && h == History(ops)
    ensures j < k && j in h[k] && j !in h[k + 1]
  {
    UseTakes(ops, k);
  }

  lemma {:induction false} RunConcat(g: Gate, a: seq<Op>, b: seq<Op>)
    ensures Run(g, a + b) == Run(Run(g, a), b)
  {
    if b == [] {
      assert a + b == a;
    } else {
      RunConcat(g, a, b[..|b| - 1]);
      assert (a + b)[..|a + b| - 1] == a + b[..|b| - 1];
    }
  }

  /** The end at `e` is the first one after `k`. */
  predicate NextEnd(ops: seq<Op>, k: nat, e: nat) {
    k < e < |ops| && ops[e].Ends? && NoEnd(ops[k + 1..e])
  }

  predicate EndNotifies(ops: seq<Op>, e: nat)
    requires e < |ops| && ops[e].Ends?
  {
    End(Run(START, ops[..e]), ops[e].explicit).1
  }

  lemma FirstEnd(ops: seq<Op>, k: nat) returns (e: nat)
    requires k < |ops|
    ensures k < e <= |ops| && NoEnd(ops[k + 1..e]) && (e < |ops| ==> NextEnd(ops, k, e))
  {
    e := k + 1;
    while e < |ops| && !ops[e].Ends?
      invariant k < e <= |ops| && NoEnd(ops[k + 1..e])
    {
      assert ops[k + 1..e + 1] == ops[k + 1..e] + [ops[e]];
      e := e + 1;
    }
  }

  lemma DeferredUpTo(ops: seq<Op>, k: nat, e: nat)
    requires k < e <= |ops| && Defers(ops[..k + 1]) && NoEnd(ops[k + 1..e])
    ensures ops[k].id in Run(START, ops[..e]).deferred && Run(START, ops[..e]).inFlight
  {
    assert ops[..k + 1][..k] == ops[..k];
    assert ops[..e] == ops[..k + 1] + ops[k + 1..e];
    RunConcat(START, ops[..k + 1], ops[k + 1..e]);
    DeferredUntilEnd(Run(START, ops[..k + 1]), ops[k + 1..e], ops[k].id);
  }

  /**
   * No update is lost, over any run: one that is answered "do not notify" either uses up the
   * entry that one earlier end put on the list for its id, which no other update uses, or it
   * is deferred; then the first end after it notifies or names it, or it is still waiting.
   */
  lemma SuppressedIsPaired(ops: seq<Op>, k: nat)
    requires k < |ops| && ops[k].Updates? && !ShouldNotifyUpdate(Run(START, ops[..k]), ops[k].id).1
    ensures Uses(ops[..k + 1]) || Defers(ops[..k + 1])
    ensures Uses(ops[..k + 1]) ==>
              var j := OriginOf(ops, k);
              && j < k && NotedAt(ops, j, ops[k].id)
              && forall n :: 0 <= n < |ops| && n != k && Uses(ops[..n + 1]) ==> OriginOf(ops, n) != j
    ensures Defers(ops[..k + 1]) ==>
              || (exists e: nat :: NextEnd(ops, k, e) && (EndNotifies(ops, e) || ops[e].explicit == Some(ops[k].id)))
              || (NoEnd(ops[k + 1..]) && ops[k].id in Run(START, ops).deferred)
  {
    assert ops[..k + 1][..k] == ops[..k];
    if Uses(ops[..k + 1]) {
      UseTakes(ops, k);
      forall n | 0 <= n < |ops| && n != k && Uses(ops[..n + 1]) ensures OriginOf(ops, n) != OriginOf(ops, k) {
        if n < k { UsesAreDistinct(ops, n, k); } else { UsesAreDistinct(ops, k, n); }
      }
    } else {
      var e := FirstEnd(ops, k);
      DeferredUpTo(ops, k, e);
      if e < |ops| {
        EndAnswers(Run(START, ops[..e]), ops[k].id, ops[e].explicit);
        assert NextEnd(ops, k, e) && (EndNotifies(ops, e) || ops[e].explicit == Some(ops[k].id));
      } else {
        assert ops[k + 1..e] == ops[k + 1..] && ops[..e] == ops;
      }
    }
  }

  /** The converse: an end that notifies answers for an update its own purchase deferred, of another id. */
  lemma NotifyingEndIsPaired(ops: seq<Op>, e: nat)
    requires e < |ops| && ops[e].Ends? && EndNotifies(ops, e)
    ensures exists k :: 0 <= k < e && Defers(ops[..k + 1]) && NextEnd(ops, k, e) && ops[e].explicit != Some(ops[k].id)
  {
    EndNotifiesForOthers(Run(START, ops[..e]), ops[e].explicit);
    var id :| id in Run(START, ops[..e]).deferred && ops[e].explicit != Some(id);
    var k := DeferredCameFrom(ops, e, id);
    assert Defers(ops[..k + 1]) && NextEnd(ops, k, e);
  }

  predicate DeferredAfter(ops: seq<Op>, e: nat, id: TransactionId)
    requires e <= |ops|
  {
    id in Run(START, ops[..e]).deferred
  }

  lemma DeferredCameFrom(ops: seq<Op>, e: nat, id: TransactionId) returns (k: nat)
    requires e <= |ops| && DeferredAfter(ops, e, id)
    ensures k < e && Defers(ops[..k + 1]) && ops[k] == Updates(id) && NoEnd(ops[k + 1..e])
  {
    var h := seq(e + 1, i requires 0 <= i <= e => DeferredAfter(ops, i, id));
    forall i | 0 <= i <= e && h[i] ensures i > 0 && !ops[i - 1].Ends? {
      DeferredStep(ops, i, id);
    }
    k := LastRise(h);
    assert h[k + 1];
    DeferredStep(ops, k + 1, id);
    var between := ops[k + 1..e];
    forall i | 0 <= i < |between| ensures !between[i].Ends? {
      assert h[k + 2 + i];
    }
  }

  lemma DeferredStep(ops: seq<Op>, e: nat, id: TransactionId)
    requires e <= |ops| && DeferredAfter(ops, e, id)
    ensures e > 0 && !ops[e - 1].Ends?
    ensures DeferredAfter(ops, e - 1, id) || (Defers(ops[..e]) && ops[e - 1] == Updates(id))
  {
    if e > 0 { assert ops[..e][..e - 1] == ops[..e - 1]; }
  }
}

/** The gate's actor: what is in flight, what waits for it, and what is remembered. */
module PurchaseGate {
  import opened Options
  import opened PurchaseGateModel

  class Actor {
    var isInFlight: bool
    var deferredUpdateTransactionIds: set<TransactionId>
    var completedTransactionIdsToSuppress: seq<TransactionId>
    ghost var noted: multiset<TransactionId>
    ghost var used: multiset<TransactionId>
    ghost var evicted: multiset<TransactionId>

    ghost function Model(): Gate
      reads this
    {
      Gate(isInFlight, deferredUpdateTransactionIds, completedTransactionIdsToSuppress, noted, used, evicted)
    }

    constructor ()
      ensures Model() == START
    {
      isInFlight, deferredUpdateTransactionIds, completedTransactionIdsToSuppress := false, {}, [];
      noted, used, evicted := multiset{}, multiset{}, multiset{};
    }

    method BeginPurchase() returns (ok: bool)
      modifies this
      ensures (Model(), ok) == Begin(old(Model()))
    {
      if isInFlight { return false; }
      isInFlight := true;
      ok := true;
    }

    method NotifyUpdate(id: TransactionId) returns (notify: bool)
      modifies this
      ensures (Model(), notify) == ShouldNotifyUpdate(old(Model()), id)
    {
      var found, index := FirstIndex(completedTransactionIdsToSuppress, id);
      if found {
        var s := completedTransactionIdsToSuppress;
        WithoutAt(s, id, index);
        completedTransactionIdsToSuppress := s[..index] + s[index + 1..];
        used := used + multiset{id};
        return false;
      }
      if isInFlight {
        deferredUpdateTransactionIds := deferredUpdateTransactionIds + {id};
        return false;
      }
      notify := true;
    }

    method RememberCompleted(id: TransactionId)
      modifies this
      ensures Model() == Remember(old(Model()), id)
    {
      var longer := completedTransactionIdsToSuppress + [id];
      noted := noted + multiset{id};
      var excess := if |longer| > MAXIMUM_REMEMBERED then |longer| - MAXIMUM_REMEMBERED else 0;
      evicted := evicted + multiset(longer[..excess]);
      completedTransactionIdsToSuppress := longer[excess..];
    }

    method EndPurchase(explicit: Option<TransactionId>) returns (notify: bool)
      modifies this
      ensures (Model(), notify) == End(old(Model()), explicit)
    {
      isInFlight := false;
      if explicit.Some? {
        if explicit.value in deferredUpdateTransactionIds {
          deferredUpdateTransactionIds := deferredUpdateTransactionIds - {explicit.value};
        } else {
          RememberCompleted(explicit.value);
          assert deferredUpdateTransactionIds - {explicit.value} == deferredUpdateTransactionIds;
        }
      }
      notify := deferredUpdateTransactionIds != {};
      deferredUpdateTransactionIds := {};
    }
  }

  method FirstIndex(s: seq<TransactionId>, id: TransactionId) returns (found: bool, index: nat)
    ensures found == (id in s)
    ensures found ==> index < |s| && s[index] == id && id !in s[..index]
  {
    for k := 0 to |s|
      invariant id !in s[..k]
    {
      if s[k] == id { return true, k; }
    }
    assert s[..|s|] == s;
    found, index := false, 0;
  }
}
