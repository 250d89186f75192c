/** What a call sends, how often it asks, and how the answer it gets decides its result. */
module EtagResults {
  import opened Options
  import opened EtagModel
  import opened EtagTheorems

  // ---- What is sent --------------------------------------------------------------------

  /** The entry may be revalidated: verification is off for the call, or the entry was verified. */
  predicate Usable(cache: Cache, mode: Mode, c: Call) {
    c.isGet && c.url in cache && (c.options.verify && mode != Disabled ==> cache[c.url].verification == Verified)
  }

  /** The tag a call sends: its entry's exactly when that may be revalidated. */
  function Tag(cache: Cache, mode: Mode, c: Call): string {
    if Usable(cache, mode, c) then cache[c.url].etag else ""
  }

  // ---- How the answer decides ----------------------------------------------------------

  /** How the signature of an answer is judged; nothing signs an empty answer without a tag. */
  predicate Signed(r: Response)
    requires r.Response?
  {
    r.goodSignature && (r.etag.Some? || (r.status != 304 && r.body != ""))
  }

  predicate Judges(mode: Mode, c: Call) {
    c.options.verify && mode != Disabled
  }

  function Judged(mode: Mode, c: Call, r: Response): Verification
    requires r.Response?
  {
    if !Judges(mode, c) then NotRequested else if Signed(r) then Verified else FailedVerification
  }

  /** Enforcement refuses what is not signed. */
  predicate Refused(mode: Mode, c: Call, r: Response)
    requires r.Response?
  {
    Judges(mode, c) && mode == Enforced && !Signed(r)
  }

  predicate Kept(c: Call, r: Response, v: Verification)
    requires r.Response?
  {
    c.isGet && v != FailedVerification && r.etag.Some? && r.etag.value != ""
  }

  /** What a call answers to an exchange that ends it, and what it then remembers. */
  predicate Ends(cache: Cache, mode: Mode, c: Call, r: Response, after: Cache, result: Result) {
    if r.NoResponse? then result == RequestFailed && after == cache
    else if r.status == 304 && c.url in cache then
      && after == cache
      && result == if Refused(mode, c, r) then RequestFailed
                   else if 200 <= cache[c.url].status <= 299 then Success(cache[c.url].status, cache[c.url].body, Judged(mode, c, r))
                   else BackendError(cache[c.url].status)
    else if r.status == 304 then after == cache && result == if Refused(mode, c, r) then RequestFailed else MissingCacheError
    else if r.status == 429 then after == cache && result == RateLimitError
    else if 200 <= r.status <= 299 then
      if Refused(mode, c, r) then result == RequestFailed && after == cache
      else
        var v := Judged(mode, c, r);
        && result == Success(r.status, r.body, v)
        && after == if Kept(c, r, v) then cache[c.url := Entry(r.etag.value, r.status, r.body, v)] else cache
    else result == BackendError(r.status) && after == cache
  }

  /** The answer asks for another exchange: a 304 that replays nothing. */
  predicate Misses(cache: Cache, mode: Mode, c: Call, r: Response) {
    r.Response? && r.status == 304 && c.url !in cache && !Refused(mode, c, r)
  }

  predicate Limits(r: Response) {
    r.Response? && r.status == 429
  }

  lemma TurnEnds(cache: Cache, mode: Mode, c: Call, peer: Exchanges, n: nat, attempt: nat)
    requires attempt < BACKOFF_ATTEMPTS && !Limits(peer(n, Tag(cache, mode, c)))
    ensures
      var (after, result, used) := RequestFrom(cache, mode, c, peer, n, attempt);
      if Misses(cache, mode, c, peer(n, Tag(cache, mode, c)))
      then used == n + 2 && Ends(cache, mode, c, peer(n + 1, ""), after, result)
      else used == n + 1 && Ends(cache, mode, c, peer(n, Tag(cache, mode, c)), after, result)
  {
    PerformEnds(cache, mode, c, false, peer, n);
    PerformEnds(cache, mode, c, true, peer, n + 1);
  }

  lemma PerformEnds(cache: Cache, mode: Mode, c: Call, force: bool, peer: Exchanges, n: nat)
    ensures
      var r := peer(n, if force then "" else Tag(cache, mode, c));
      var (after, o) := Perform(cache, mode, c, force, peer, n);
      && Ends(cache, mode, c, r, after, Finish(o))
      && (o.NotModifiedWithoutCache? <==> Misses(cache, mode, c, r))
      && (o.RateLimited? <==> Limits(r))
  {
  }

  /** How many turns the call makes: up to the first that is not rate limited, three at most, one if not retryable. */
  ghost predicate LastTurn(cache: Cache, mode: Mode, c: Call, peer: Exchanges, k: nat) {
    && (forall i :: 0 <= i < k ==> Limits(peer(i, Tag(cache, mode, c))))
    && k < 3 && (!c.options.retryable ==> k == 0)
  }

  /**
   * Main result. Every exchange carries the tag of the entry, if that may be revalidated. If
   * those before the `k`-th are rate limited and the call may still retry, the `k`-th decides:
   * the call ends with that answer after `k + 1` exchanges, or with the answer to one more,
   * sent without a tag, after a 304 that replays nothing.
   */
  lemma AnswersDecide(cache: Cache, mode: Mode, c: Call, peer: Exchanges, k: nat)
    requires LastTurn(cache, mode, c, peer, k) && !Limits(peer(k, Tag(cache, mode, c)))
    ensures
      var (after, result, used) := Request(cache, mode, c, peer);
      if Misses(cache, mode, c, peer(k, Tag(cache, mode, c)))
      then used == k + 2 && Ends(cache, mode, c, peer(k + 1, ""), after, result)
      else used == k + 1 && Ends(cache, mode, c, peer(k, Tag(cache, mode, c)), after, result)
  {
    SkipsLimited(cache, mode, c, peer, k);
    TurnEnds(cache, mode, c, peer, k, k);
  }

  lemma {:induction false} SkipsLimited(cache: Cache, mode: Mode, c: Call, peer: Exchanges, k: nat)
    requires LastTurn(cache, mode, c, peer, k)
    ensures Request(cache, mode, c, peer) == RequestFrom(cache, mode, c, peer, k, k)
  {
    if k > 0 {
      SkipsLimited(cache, mode, c, peer, k - 1);
      PerformEnds(cache, mode, c, false, peer, k - 1);
    }
  }

  /** And if the last turn allowed is rate limited too, the call ends there, with nothing remembered. */
  lemma LimitsRunOut(cache: Cache, mode: Mode, c: Call, peer: Exchanges, k: nat)
    requires LastTurn(cache, mode, c, peer, k) && Limits(peer(k, Tag(cache, mode, c)))
    requires k == if c.options.retryable then 2 else 0
    ensures Request(cache, mode, c, peer) == (cache, RateLimitError, k + 1)
  {
    SkipsLimited(cache, mode, c, peer, k);
    PerformEnds(cache, mode, c, false, peer, k);
  }

  // ---- Against the server --------------------------------------------------------------

  /**
   * Against the ETag server, one signed exchange brings the current body and leaves a current
   * entry; the body itself travels exactly when the entry is missing, unusable or stale.
   */
  lemma RevalidatesOrReplaces(tag: Tagging, cache: Cache, mode: Mode, c: Call, handling: nat -> Handling)
    requires TagsIdentifyBodies(tag) && Coherent(tag, cache) && c.isGet
    requires handling(0).Serves? && !handling(0).forced && handling(0).goodSignature
    ensures
      var body := handling(0).body;
      var v := if Judges(mode, c) then Verified else NotRequested;
      var r := Server(tag, handling)(0, Tag(cache, mode, c));
      var (after, result, used) := Request(cache, mode, c, Server(tag, handling));
      && used == 1 && result == Success(200, body, v)
      && c.url in after && after[c.url].body == body && after[c.url].etag == tag(body)
      && (r.status == 304 <==> Usable(cache, mode, c) && cache[c.url].body == body)
      && (r.status != 304 ==> r.status == 200 && r.body == body)
  {
    assert Server(tag, handling)(0, Tag(cache, mode, c)) == Respond(tag, handling(0), Tag(cache, mode, c));
    if c.url in cache { assert EntryCurrentAsOf(tag, cache[c.url]); }
    AnswersDecide(cache, mode, c, Server(tag, handling), 0);
  }

  /** What the server refuses, drops or limits, a call that is not retryable reports as it is. */
  lemma RefusalsAreReported(tag: Tagging, cache: Cache, mode: Mode, c: Call, handling: nat -> Handling)
    requires !handling(0).Serves? && !c.options.retryable
    ensures
      var h := handling(0);
      Request(cache, mode, c, Server(tag, handling)) ==
      (cache,
       if h.Drops? then RequestFailed else if h.Limits? then RateLimitError
       else BackendError(if h.status >= 400 && h.status != 429 then h.status else 500),
       1)
  {
    assert Server(tag, handling)(0, Tag(cache, mode, c)) == Respond(tag, handling(0), Tag(cache, mode, c));
    if handling(0).Limits? {
      LimitsRunOut(cache, mode, c, Server(tag, handling), 0);
    } else {
      AnswersDecide(cache, mode, c, Server(tag, handling), 0);
    }
  }
}
