/**
 * The HTTP client's ETag cache and retry loop, and the ETag server it talks to.
 *
 * `Exchanges` gives the peer's answer to each exchange, by its number and the tag it carried.
 * Whether a response's signature is good is part of the answer.
 */
module EtagModel {
  import opened Options

  type Url = string

  const BACKOFF_ATTEMPTS: nat := 3

  datatype Verification = NotRequested | Verified | FailedVerification

  datatype Entry = Entry(etag: string, status: nat, body: string, verification: Verification)

  type Cache = map<Url, Entry>

  datatype Mode = Disabled | Informational | Enforced

  datatype RequestOptions = RequestOptions(retryable: bool, verify: bool)

  datatype Response =
    | NoResponse
    | Response(status: nat, etag: Option<string>, body: string, goodSignature: bool)

  type Exchanges = (nat, string) -> Response

  predicate IsSuccess(status: nat) {
    200 <= status < 300
  }

  predicate Verifying(mode: Mode, options: RequestOptions) {
    options.verify && mode != Disabled
  }

  /** `X-RevenueCat-ETag`; the empty tag asks for a full response. */
  function RequestTag(cache: Cache, url: Url, forceRefresh: bool, requireVerified: bool): string {
    if forceRefresh || url !in cache || (requireVerified && cache[url].verification != Verified) then ""
    else cache[url].etag
  }

  /** `None` when enforcement turns a bad signature into an error. */
  function VerifyResponse(mode: Mode, options: RequestOptions, r: Response): Option<Verification>
    requires r.Response?
  {
    if !Verifying(mode, options) then Some(NotRequested)
    else if r.goodSignature && (r.body != "" || r.etag.Some?) then Some(Verified)
    else if mode == Enforced then None
    else Some(FailedVerification)
  }

  datatype Outcome =
    | PerformFailed
    | Resolved(status: nat, body: string, verification: Verification)
    | NotModifiedWithoutCache
    | RateLimited

  function Receive(cache: Cache, url: Url, useEtag: bool, mode: Mode, options: RequestOptions, r: Response): (Cache, Outcome) {
    if r.NoResponse? then (cache, PerformFailed)
    else if r.status == 304 then
      var verification := VerifyResponse(mode, options, r.(body := ""));
      if verification.None? then (cache, PerformFailed)
      else if url in cache then (cache, Resolved(cache[url].status, cache[url].body, verification.value))
      else (cache, NotModifiedWithoutCache)
    else if r.status == 429 then (cache, RateLimited)
    else if !IsSuccess(r.status) then (cache, Resolved(r.status, r.body, NotRequested))
    else
      var verification := VerifyResponse(mode, options, r);
      if verification.None? then (cache, PerformFailed)
      else
        var stored :=
          if useEtag && verification.value != FailedVerification && r.etag.Some? && r.etag.value != ""
          then cache[url := Entry(r.etag.value, r.status, r.body, verification.value)] else cache;
        (stored, Resolved(r.status, r.body, verification.value))
  }

  /** One call: a `GET` uses tags, a `POST` does not. */
  datatype Call = Call(url: Url, isGet: bool, options: RequestOptions)

  function SentTag(cache: Cache, mode: Mode, c: Call, forceRefresh: bool): string {
    if c.isGet then RequestTag(cache, c.url, forceRefresh, Verifying(mode, c.options)) else ""
  }

  function Perform(cache: Cache, mode: Mode, c: Call, forceRefresh: bool, peer: Exchanges, n: nat): (Cache, Outcome) {
    Receive(cache, c.url, c.isGet, mode, c.options, peer(n, SentTag(cache, mode, c, forceRefresh)))
  }

  datatype Result =
    | Success(status: nat, body: string, verification: Verification)
    | BackendError(status: nat)
    | RateLimitError
    | MissingCacheError
    | RequestFailed

  function Finish(o: Outcome): Result {
    match o
    case Resolved(status, body, verification) => if IsSuccess(status) then Success(status, body, verification) else BackendError(status)
    case NotModifiedWithoutCache => MissingCacheError
    case RateLimited => RateLimitError
    case PerformFailed => RequestFailed
  }

  /** The retry loop from its `attempt`-th turn on; also how many exchanges there have been. */
  function RequestFrom(cache: Cache, mode: Mode, c: Call, peer: Exchanges, n: nat, attempt: nat): (Cache, Result, nat)
    requires attempt < BACKOFF_ATTEMPTS
    decreases BACKOFF_ATTEMPTS - attempt
  {
    var (after, o) := Perform(cache, mode, c, false, peer, n);
    match o
    case NotModifiedWithoutCache =>
      var (retried, again) := Perform(after, mode, c, true, peer, n + 1);
      (retried, Finish(again), n + 2)
    case RateLimited =>
      if !c.options.retryable || attempt + 1 >= BACKOFF_ATTEMPTS then (after, RateLimitError, n + 1)
      else RequestFrom(after, mode, c, peer, n + 1, attempt + 1)
    case _ => (after, Finish(o), n + 1)
  }

  function Request(cache: Cache, mode: Mode, c: Call, peer: Exchanges): (Cache, Result, nat) {
    RequestFrom(cache, mode, c, peer, 0, 0)
  }

  // ---- The ETag server -----------------------------------------------------------------

  /**
   * What the server does in one exchange. `forced` is the test mark that answers 304 whatever
   * tag was sent.
   */
  datatype Handling =
    | Drops
    | Limits
    | Refuses(status: nat, message: string)
    | Serves(body: string, forced: bool, goodSignature: bool)

  type Tagging = string -> string

  function Respond(tag: Tagging, h: Handling, sent: string): Response {
    match h
    case Drops => NoResponse
    case Limits => Response(429, None, "", false)
    case Refuses(status, message) => Response(if status >= 400 && status != 429 then status else 500, None, message, false)
    case Serves(body, forced, good) =>
      if forced || (sent != "" && sent == tag(body)) then Response(304, Some(tag(body)), "", good)
      else Response(200, Some(tag(body)), body, good)
  }

  function Server(tag: Tagging, handling: nat -> Handling): Exchanges {
    (n: nat, sent: string) => Respond(tag, handling(n), sent)
  }
}

/** What the cache keeps, and what a `GET` returns. */
module EtagTheorems {
  import opened Options
  import opened EtagModel

  ghost predicate TagsIdentifyBodies(tag: Tagging) {
    && (forall a, b :: tag(a) == tag(b) ==> a == b)
    && (forall a :: tag(a) != "")
  }

  /** Each entry carries its own body's tag. */
  predicate EntryCurrentAsOf(tag: Tagging, e: Entry) {
    e.etag == tag(e.body) && e.status == 200
  }

  ghost predicate Coherent(tag: Tagging, cache: Cache) {
    forall url :: url in cache ==> EntryCurrentAsOf(tag, cache[url])
  }

  lemma {:induction false} MakesAtMostFour(cache: Cache, mode: Mode, c: Call, peer: Exchanges, n: nat, attempt: nat)
    requires attempt < BACKOFF_ATTEMPTS
    ensures
      var used := RequestFrom(cache, mode, c, peer, n, attempt).2 - n;
      1 <= used <= BACKOFF_ATTEMPTS - attempt + 1 && (!c.options.retryable ==> used <= 2)
    decreases BACKOFF_ATTEMPTS - attempt
  {
    var (after, o) := Perform(cache, mode, c, false, peer, n);
    if o.RateLimited? && c.options.retryable && attempt + 1 < BACKOFF_ATTEMPTS {
      MakesAtMostFour(after, mode, c, peer, n + 1, attempt + 1);
    }
  }

  /** Every call ends after one to four exchanges, whatever the peer answers. */
  lemma AtMostFourExchanges(cache: Cache, mode: Mode, c: Call, peer: Exchanges)
    ensures 1 <= Request(cache, mode, c, peer).2 <= 4
    ensures !c.options.retryable ==> Request(cache, mode, c, peer).2 <= 2
  {
    MakesAtMostFour(cache, mode, c, peer, 0, 0);
  }

  // ---- Verification --------------------------------------------------------------------

  /** Calls to one URL agree on whether the endpoint is verified. */
  type Endpoints = Url -> bool

  predicate EntryTrusted(mode: Mode, verified: Endpoints, url: Url, e: Entry) {
    && e.verification == (if verified(url) && mode != Disabled then Verified else NotRequested)
    && e.etag != ""
    && IsSuccess(e.status)
  }

  ghost predicate Trusted(mode: Mode, verified: Endpoints, cache: Cache) {
    forall url :: url in cache ==> EntryTrusted(mode, verified, url, cache[url])
  }

  lemma {:induction false} RequestKeepsTrusted(cache: Cache, mode: Mode, verified: Endpoints, c: Call, peer: Exchanges, n: nat, attempt: nat)
    requires attempt < BACKOFF_ATTEMPTS && Trusted(mode, verified, cache) && c.options.verify == verified(c.url)
    ensures Trusted(mode, verified, RequestFrom(cache, mode, c, peer, n, attempt).0)
    decreases BACKOFF_ATTEMPTS - attempt
  {
    var (after, o) := Perform(cache, mode, c, false, peer, n);
    if o.RateLimited? && c.options.retryable && attempt + 1 < BACKOFF_ATTEMPTS {
      RequestKeepsTrusted(after, mode, verified, c, peer, n + 1, attempt + 1);
    }
  }

  /** Under enforcement, a verified endpoint's success is a verified one, fresh or replayed. */
  lemma {:induction false} EnforcedSuccessIsVerified(cache: Cache, c: Call, peer: Exchanges, n: nat, attempt: nat)
    requires attempt < BACKOFF_ATTEMPTS && c.options.verify
    ensures
      var result := RequestFrom(cache, Enforced, c, peer, n, attempt).1;
      result.Success? ==> result.verification == Verified
    decreases BACKOFF_ATTEMPTS - attempt
  {
    var (after, o) := Perform(cache, Enforced, c, false, peer, n);
    if o.RateLimited? && c.options.retryable && attempt + 1 < BACKOFF_ATTEMPTS {
      EnforcedSuccessIsVerified(after, c, peer, n + 1, attempt + 1);
    }
  }

  // ---- Runs of calls -------------------------------------------------------------------

  datatype Step = Step(call: Call, peer: Exchanges)

  function Run(mode: Mode, steps: seq<Step>): Cache {
    if steps == [] then map[]
    else
      var last := steps[|steps| - 1];
      Request(Run(mode, steps[..|steps| - 1]), mode, last.call, last.peer).0
  }

  /**
   * Whatever peers answer, an entry of a verified endpoint is always `Verified`, and no entry
   * ever comes from a response that failed verification.
   */
  lemma {:induction false} OnlyTrustedEntries(mode: Mode, verified: Endpoints, steps: seq<Step>)
    requires forall k :: 0 <= k < |steps| ==> steps[k].call.options.verify == verified(steps[k].call.url)
    ensures Trusted(mode, verified, Run(mode, steps))
  {
    if steps != [] {
      var last := steps[|steps| - 1];
      OnlyTrustedEntries(mode, verified, steps[..|steps| - 1]);
      RequestKeepsTrusted(Run(mode, steps[..|steps| - 1]), mode, verified, last.call, last.peer, 0, 0);
    }
  }

  lemma PerformKeepsCoherent(tag: Tagging, cache: Cache, mode: Mode, c: Call, force: bool, handling: nat -> Handling, n: nat)
    requires Coherent(tag, cache)
    ensures Coherent(tag, Perform(cache, mode, c, force, Server(tag, handling), n).0)
  {
    var after := Perform(cache, mode, c, force, Server(tag, handling), n).0;
    var sent := SentTag(cache, mode, c, force);
    assert Server(tag, handling)(n, sent) == Respond(tag, handling(n), sent);
    forall url | url in after ensures EntryCurrentAsOf(tag, after[url]) {
      if url in cache { assert EntryCurrentAsOf(tag, cache[url]); }
    }
  }

  lemma {:induction false} RequestKeepsCoherent(tag: Tagging, cache: Cache, mode: Mode, c: Call, handling: nat -> Handling, n: nat, attempt: nat)
    requires attempt < BACKOFF_ATTEMPTS && Coherent(tag, cache)
    ensures Coherent(tag, RequestFrom(cache, mode, c, Server(tag, handling), n, attempt).0)
    decreases BACKOFF_ATTEMPTS - attempt
  {
    var (after, o) := Perform(cache, mode, c, false, Server(tag, handling), n);
    PerformKeepsCoherent(tag, cache, mode, c, false, handling, n);
    if o.NotModifiedWithoutCache? {
      PerformKeepsCoherent(tag, after, mode, c, true, handling, n + 1);
    } else if o.RateLimited? && c.options.retryable && attempt + 1 < BACKOFF_ATTEMPTS {
      RequestKeepsCoherent(tag, after, mode, c, handling, n + 1, attempt + 1);
    }
  }

  /** `POST`s may be answered by anything; `GET`s by the ETag server, whatever it serves when. */
  ghost predicate FromServer(tag: Tagging, s: Step) {
    s.call.isGet ==> exists handling: nat -> Handling :: s.peer == Server(tag, handling)
  }

  lemma {:induction false} PostsLeaveCache(cache: Cache, mode: Mode, c: Call, peer: Exchanges, n: nat, attempt: nat)
    requires attempt < BACKOFF_ATTEMPTS && !c.isGet
    ensures RequestFrom(cache, mode, c, peer, n, attempt).0 == cache
    decreases BACKOFF_ATTEMPTS - attempt
  {
    var (after, o) := Perform(cache, mode, c, false, peer, n);
    if o.RateLimited? && c.options.retryable && attempt + 1 < BACKOFF_ATTEMPTS {
      PostsLeaveCache(after, mode, c, peer, n + 1, attempt + 1);
    }
  }

  lemma {:induction false} CacheStaysCoherent(tag: Tagging, mode: Mode, steps: seq<Step>)
    requires forall k :: 0 <= k < |steps| ==> FromServer(tag, steps[k])
    ensures Coherent(tag, Run(mode, steps))
  {
    if steps != [] {
      var last := steps[|steps| - 1];
      CacheStaysCoherent(tag, mode, steps[..|steps| - 1]);
      assert FromServer(tag, last);
      if last.call.isGet {
        var handling: nat -> Handling :| last.peer == Server(tag, handling);
        RequestKeepsCoherent(tag, Run(mode, steps[..|steps| - 1]), mode, last.call, handling, 0, 0);
      } else {
        PostsLeaveCache(Run(mode, steps[..|steps| - 1]), mode, last.call, last.peer, 0, 0);
      }
    }
  }

  // ---- What a GET returns --------------------------------------------------------------

  /** The exchange answers 304 by force while the cached body is not what the server has. */
  predicate ForcedStale(cache: Cache, url: Url, h: Handling) {
    h.Serves? && h.forced && url in cache && cache[url].body != h.body
  }

  /**
   * A success carries the body the server has at that exchange, except exactly when the
   * exchange was a forced 304 over a stale entry.
   */
  predicate ReturnsCurrent(cache: Cache, url: Url, h: Handling, r: Result) {
    r.Success? ==>
      h.Serves? && r.status == 200 && (r.body == h.body <==> !ForcedStale(cache, url, h))
  }

  /** What injective tags are needed for: a matching tag means a matching body. */
  predicate TellsApart(tag: Tagging, cache: Cache, url: Url, h: Handling) {
    h.Serves? && url in cache && cache[url].etag == tag(h.body) ==> cache[url].body == h.body
  }

  lemma PerformResolves(tag: Tagging, cache: Cache, mode: Mode, c: Call, force: bool, handling: nat -> Handling, n: nat)
    requires Coherent(tag, cache) && c.isGet && TellsApart(tag, cache, c.url, handling(n))
    ensures
      var (after, o) := Perform(cache, mode, c, force, Server(tag, handling), n);
      && (!o.Resolved? ==> after == cache)
      && ReturnsCurrent(cache, c.url, handling(n), Finish(o))
  {
    if c.url in cache { assert EntryCurrentAsOf(tag, cache[c.url]); }
  }

  lemma {:induction false} GetFromReturns(tag: Tagging, cache: Cache, mode: Mode, c: Call, handling: nat -> Handling, n: nat, attempt: nat)
    requires attempt < BACKOFF_ATTEMPTS && Coherent(tag, cache) && c.isGet
    requires forall k :: TellsApart(tag, cache, c.url, handling(k))
    ensures
      var (after, result, used) := RequestFrom(cache, mode, c, Server(tag, handling), n, attempt);
      n < used && ReturnsCurrent(cache, c.url, handling(used - 1), result)
    decreases BACKOFF_ATTEMPTS - attempt
  {
    var o := Perform(cache, mode, c, false, Server(tag, handling), n).1;
    if o.RateLimited? && c.options.retryable && attempt + 1 < BACKOFF_ATTEMPTS {
      PerformResolves(tag, cache, mode, c, false, handling, n);
      GetFromReturns(tag, cache, mode, c, handling, n + 1, attempt + 1);
    } else {
      LastTurnReturns(tag, cache, mode, c, handling, n, attempt);
    }
  }

  lemma LastTurnReturns(tag: Tagging, cache: Cache, mode: Mode, c: Call, handling: nat -> Handling, n: nat, attempt: nat)
    requires attempt < BACKOFF_ATTEMPTS && Coherent(tag, cache) && c.isGet
    requires TellsApart(tag, cache, c.url, handling(n)) && TellsApart(tag, cache, c.url, handling(n + 1))
    requires
      Perform(cache, mode, c, false, Server(tag, handling), n).1.RateLimited? ==>
        !c.options.retryable || attempt + 1 >= BACKOFF_ATTEMPTS
    ensures
      var (after, result, used) := RequestFrom(cache, mode, c, Server(tag, handling), n, attempt);
      n < used && ReturnsCurrent(cache, c.url, handling(used - 1), result)
  {
    var o := Perform(cache, mode, c, false, Server(tag, handling), n).1;
    PerformResolves(tag, cache, mode, c, false, handling, n);
    if o.NotModifiedWithoutCache? { PerformResolves(tag, cache, mode, c, true, handling, n + 1); }
  }

  lemma EachToldApart(tag: Tagging, cache: Cache, url: Url, handling: nat -> Handling)
    requires TagsIdentifyBodies(tag) && Coherent(tag, cache)
    ensures forall k :: TellsApart(tag, cache, url, handling(k))
  {
    if url in cache { assert EntryCurrentAsOf(tag, cache[url]); }
  }

  /** After any run of calls, over any history of bodies, failures and rate limits. */
  lemma GetReturnsCurrentBody(tag: Tagging, mode: Mode, steps: seq<Step>, c: Call, handling: nat -> Handling)
    requires TagsIdentifyBodies(tag) && c.isGet
    requires forall k :: 0 <= k < |steps| ==> FromServer(tag, steps[k])
    ensures
      var cache := Run(mode, steps);
      var (_, result, used) := Request(cache, mode, c, Server(tag, handling));
      0 < used <= 4 && ReturnsCurrent(cache, c.url, handling(used - 1), result)
  {
    var cache := Run(mode, steps);
    CacheStaysCoherent(tag, mode, steps);
    EachToldApart(tag, cache, c.url, handling);
    GetFromReturns(tag, cache, mode, c, handling, 0, 0);
    AtMostFourExchanges(cache, mode, c, Server(tag, handling));
  }

  function Always(h: Handling): nat -> Handling {
    (_: nat) => h
  }

  lemma AlwaysAnswers(tag: Tagging, h: Handling, n: nat, sent: string)
    ensures Server(tag, Always(h))(n, sent) == Respond(tag, h, sent)
  {
    assert Always(h)(n) == h;
  }

  /** The exception is real: after serving "a", a forced 304 answers a `GET` of "b" with "a". */
  lemma ForcedAnswerCanBeStale(tag: Tagging, url: Url)
    requires TagsIdentifyBodies(tag)
    ensures
      var c := Call(url, true, RequestOptions(false, false));
      var first := Step(c, Server(tag, Always(Serves("a", false, false))));
      Request(Run(Disabled, [first]), Disabled, c, Server(tag, Always(Serves("b", true, false)))).1
        == Success(200, "a", NotRequested)
  {
    var c := Call(url, true, RequestOptions(false, false));
    var first := Step(c, Server(tag, Always(Serves("a", false, false))));
    var cache: Cache := map[url := Entry(tag("a"), 200, "a", NotRequested)];
    AlwaysAnswers(tag, Serves("a", false, false), 0, "");
    assert Run(Disabled, [first][..0]) == map[];
    assert Run(Disabled, [first]) == cache;
    AlwaysAnswers(tag, Serves("b", true, false), 0, tag("a"));
  }

  // ---- Retries succeed -----------------------------------------------------------------

  /** A 304 without an entry costs one more exchange, which the server answers in full unless forced again. */
  lemma MissingEntryIsRefetched(tag: Tagging, cache: Cache, mode: Mode, c: Call, handling: nat -> Handling)
    requires c.isGet && c.url !in cache
    requires handling(0).Serves? && handling(0).forced && handling(1).Serves? && !handling(1).forced
    requires Verifying(mode, c.options) ==> handling(0).goodSignature && handling(1).goodSignature
    ensures
      var (after, result, used) := Request(cache, mode, c, Server(tag, handling));
      && result == Success(200, handling(1).body, if Verifying(mode, c.options) then Verified else NotRequested)
      && used == 2
  {
  }
}
