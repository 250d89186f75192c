/** The client: a mutable table of entries, and a request loop that counts its attempts. */
module EtagClient {
  import opened Options
  import opened EtagModel

  class ETagManager {
    var entries: Cache

    constructor ()
      ensures entries == map[]
    {
      entries := map[];
    }

    method RequestHeader(url: Url, forceRefresh: bool, requireVerified: bool) returns (tag: string)
      ensures tag == RequestTag(entries, url, forceRefresh, requireVerified)
    {
      if forceRefresh || url !in entries { return ""; }
      var cached := entries[url];
      if requireVerified && cached.verification != Verified { return ""; }
      tag := cached.etag;
    }

    method Get(url: Url) returns (entry: Option<Entry>)
      ensures entry == if url in entries then Some(entries[url]) else None
    {
      entry := if url in entries then Some(entries[url]) else None;
    }

    method StoreEntry(url: Url, etag: string, status: nat, body: string, verification: Verification)
      modifies this
      ensures entries == old(entries)[url := Entry(etag, status, body, verification)]
    {
      entries := entries[url := Entry(etag, status, body, verification)];
    }
  }

  class HttpClient {
    const mode: Mode
    const etags: ETagManager

    constructor (mode: Mode)
      ensures this.mode == mode && fresh(etags) && etags.entries == map[]
    {
      this.mode := mode;
      etags := new ETagManager();
    }

    method Verify(options: RequestOptions, goodSignature: bool, etag: Option<string>, body: string) returns (v: Option<Verification>)
      ensures v == VerifyResponse(mode, options, Response(200, etag, body, goodSignature))
    {
      if mode == Disabled || !options.verify { return Some(NotRequested); }
      if goodSignature && !(body == "" && etag.None?) { return Some(Verified); }
      v := if mode == Enforced then None else Some(FailedVerification);
    }

    method PerformExchange(c: Call, forceRefresh: bool, peer: Exchanges, n: nat) returns (o: Outcome)
      modifies etags
      ensures (etags.entries, o) == Perform(old(etags.entries), mode, c, forceRefresh, peer, n)
    {
      var tag := "";
      if c.isGet { tag := etags.RequestHeader(c.url, forceRefresh, c.options.verify && mode != Disabled); }
      var response := peer(n, tag);
      if response.NoResponse? { return PerformFailed; }
      if response.status == 304 {
        var verification := Verify(c.options, response.goodSignature, response.etag, "");
        if verification.None? { return PerformFailed; }
        var cached := etags.Get(c.url);
        return if cached.Some? then Resolved(cached.value.status, cached.value.body, verification.value) else NotModifiedWithoutCache;
      }
      if response.status == 429 { return RateLimited; }
      var verification := Some(NotRequested);
      if 200 <= response.status < 300 {
        verification := Verify(c.options, response.goodSignature, response.etag, response.body);
        if verification.None? { return PerformFailed; }
        if c.isGet && verification.value != FailedVerification && response.etag.Some? && response.etag.value != "" {
          etags.StoreEntry(c.url, response.etag.value, response.status, response.body, verification.value);
        }
      }
      o := Resolved(response.status, response.body, verification.value);
    }

    /** The exchanges of one call are numbered from zero; `used` of them take place. */
    method RequestCall(c: Call, peer: Exchanges) returns (r: Result, used: nat)
      modifies etags
      ensures (etags.entries, r, used) == Request(old(etags.entries), mode, c, peer)
    {
      var attempt := 0;
      used := 0;
      while true
        invariant attempt < BACKOFF_ATTEMPTS
        invariant RequestFrom(etags.entries, mode, c, peer, used, attempt) == Request(old(etags.entries), mode, c, peer)
        decreases BACKOFF_ATTEMPTS - attempt
      {
        var o := PerformExchange(c, false, peer, used);
        used := used + 1;
        match o {
          case Resolved(status, body, verification) => return Finish(o), used;
          case PerformFailed => return RequestFailed, used;
          case NotModifiedWithoutCache =>
            var retried := PerformExchange(c, true, peer, used);
            return Finish(retried), used + 1;
          case RateLimited =>
            if !c.options.retryable || attempt + 1 >= BACKOFF_ATTEMPTS { return RateLimitError, used; }
            attempt := attempt + 1;
        }
      }
    }
  }
}
