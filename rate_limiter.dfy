/** The rate-limiting fairing (src/rate_limits/fairing.rs and
    src/rate_limits/mod.rs). The `recent_requests` table is a sequence held
    by the limiter; the current time and the configured API key hashes are
    parameters. */
module RateLimits {
  import opened Optional
  import opened Time
  import opened Http

  /** Requests per minute without and with a valid API key. */
  const UnauthenticatedAllowedRequestsPerMinute: nat := 60
  const ApiKeyAllowedRequestsPerMinute: nat := 120

  /** Where a limited request is sent instead. */
  const RateLimitedUri: string := "/.super_secret/you_are_rate_limited"

  const ApiPrefix: string := "/api/"

  /** A row of `recent_requests`: keyed by IP or by API key hash. */
  datatype RecentRequest = RecentRequest(ip: Option<IpAddr>, apiKeyHash: Option<string>, epoch: Instant)

  /** Whom a request is counted against. */
  datatype Requester = ByKey(hash: string) | ByIp(ip: IpAddr)

  /** Only URIs under "/api/" are limited and recorded. */
  predicate IsApiUri(uri: string)
  {
    |uri| >= |ApiPrefix| && uri[..|ApiPrefix|] == ApiPrefix
  }

  /** The hash `ApiKey::from_request(..).succeeded()` yields: the SHA-256 of
      the `Authorization` header, when it is one of the configured hashes. */
  function ApiKeyHash(headers: Headers, keyHashes: set<string>, library: Library): (r: Option<string>)
    ensures r.Some? <==> AuthorizationHeader in headers && library.sha256Hex(headers[AuthorizationHeader]) in keyHashes
    ensures r.Some? ==> r.value == library.sha256Hex(headers[AuthorizationHeader])
  {
    match GetOne(headers, AuthorizationHeader)
    case None => None
    case Some(header) =>
      var hash := library.sha256Hex(header);
      if hash in keyHashes then Some(hash) else None
  }

  /** The address a request without a key is counted against: `X-Real-IP`
      when it parses, else the connection's address. `None` is the panic of
      `request.remote().unwrap()`, which is evaluated even when the header
      parses. */
  function ClientIp(headers: Headers, remote: Option<IpAddr>, library: Library): (r: Option<IpAddr>)
    ensures r.None? <==> remote.None?
    ensures r.Some? && RealIpHeader in headers && library.parseIp(headers[RealIpHeader]).Some? ==>
      r.value == library.parseIp(headers[RealIpHeader]).value
    ensures r.Some? && (RealIpHeader !in headers || library.parseIp(headers[RealIpHeader]).None?) ==>
      r.value == remote.value
  {
    if remote.None? then None
    else
      match GetOne(headers, RealIpHeader)
      case Some(headerIp) => Some(library.parseIp(headerIp).UnwrapOr(remote.value))
      case None => Some(remote.value)
  }

  /** The key hash if the request has a valid key, otherwise the client's
      address; `None` when finding the address panics. */
  function RequesterOf(headers: Headers, remote: Option<IpAddr>, keyHashes: set<string>, library: Library): Option<Requester>
  {
    match ApiKeyHash(headers, keyHashes, library)
    case Some(hash) => Some(ByKey(hash))
    case None =>
      match ClientIp(headers, remote, library)
      case Some(ip) => Some(ByIp(ip))
      case None => None
  }

  /** The allowance per minute. */
  function Allowance(who: Requester): nat
  {
    if who.ByKey? then ApiKeyAllowedRequestsPerMinute else UnauthenticatedAllowedRequestsPerMinute
  }

  /** The row matches the `api_key_hash = ?` or `ip = ?` condition. */
  predicate Matches(record: RecentRequest, who: Requester)
  {
    match who
    case ByKey(hash) => record.apiKeyHash == Some(hash)
    case ByIp(ip) => record.ip == Some(ip)
  }

  /** The rows `SELECT * FROM recent_requests WHERE epoch > ? AND ... = ?`
      returns, in table order. */
  function Window(records: seq<RecentRequest>, who: Requester, since: Instant): (r: seq<RecentRequest>)
    ensures |r| <= |records|
    ensures forall k :: 0 <= k < |r| ==> r[k].epoch > since && Matches(r[k], who)
  {
    if records == [] then []
    else
      var last := records[|records| - 1];
      Window(records[..|records| - 1], who, since)
        + (if last.epoch > since && Matches(last, who) then [last] else [])
  }

  /** The rows `DELETE FROM recent_requests WHERE epoch < ?` leaves. */
  function Pruned(records: seq<RecentRequest>, cutoff: Instant): (r: seq<RecentRequest>)
    ensures |r| <= |records|
    ensures forall k :: 0 <= k < |r| ==> r[k].epoch >= cutoff
  {
    if records == [] then []
    else
      var last := records[|records| - 1];
      Pruned(records[..|records| - 1], cutoff) + (if last.epoch < cutoff then [] else [last])
  }

  /** The row `on_response` inserts. */
  function RecordFor(who: Requester, now: Instant): RecentRequest
  {
    match who
    case ByKey(hash) => RecentRequest(None, Some(hash), now)
    case ByIp(ip) => RecentRequest(Some(ip), None, now)
  }

  /** The requester has used up its allowance in the minute before `now`. */
  predicate Limited(records: seq<RecentRequest>, who: Requester, now: Instant)
    ensures who.ByKey? ==> (Limited(records, who, now) <==> |Window(records, who, now - OneMinute)| >= 120)
    ensures who.ByIp? ==> (Limited(records, who, now) <==> |Window(records, who, now - OneMinute)| >= 60)
    ensures Limited(records, who, now) ==> |records| >= Allowance(who)
  {
    |Window(records, who, now - OneMinute)| >= Allowance(who)
  }

  /** The request's URI after `on_request`. */
  function UriAfterRequest(records: seq<RecentRequest>, uri: string, headers: Headers, remote: Option<IpAddr>,
                           now: Instant, keyHashes: set<string>, library: Library): (u: string)
    ensures u == uri || (IsApiUri(uri) && u == RateLimitedUri)
    ensures RequesterOf(headers, remote, keyHashes, library).None? ==> u == uri
    ensures u != uri <==>
      IsApiUri(uri) && RequesterOf(headers, remote, keyHashes, library).Some? &&
      |Window(records, RequesterOf(headers, remote, keyHashes, library).value, now - OneMinute)|
        >= Allowance(RequesterOf(headers, remote, keyHashes, library).value)
  {
    var who := RequesterOf(headers, remote, keyHashes, library);
    assert RateLimitedUri[1] != ApiPrefix[1];
    if IsApiUri(uri) && who.Some? && Limited(records, who.value, now) then RateLimitedUri else uri
  }

  /** The table after `on_response`. */
  function TableAfterResponse(records: seq<RecentRequest>, uri: string, headers: Headers, remote: Option<IpAddr>,
                              now: Instant, keyHashes: set<string>, library: Library): (t: seq<RecentRequest>)
    ensures !IsApiUri(uri) || RequesterOf(headers, remote, keyHashes, library).None? ==> t == records
    ensures IsApiUri(uri) && RequesterOf(headers, remote, keyHashes, library).Some? ==>
      |t| <= |records| + 1 && forall k :: 0 <= k < |t| ==> t[k].epoch >= now - OneMinute
  {
    var who := RequesterOf(headers, remote, keyHashes, library);
    if IsApiUri(uri) && who.Some? then Pruned(records + [RecordFor(who.value, now)], now - OneMinute) else records
  }

  /** The fairing either finishes or panics. */
  datatype Completion = Done | Panicked

  class RateLimiter {
    /** The `recent_requests` table. */
    var recentRequests: seq<RecentRequest>

    constructor ()
      ensures recentRequests == []
    {
      recentRequests := [];
    }

    /** The length of the `fetch_all` result for a requester. */
    method CountRecent(who: Requester, since: Instant) returns (count: nat)
      ensures count == |Window(recentRequests, who, since)|
    {
      count := 0;
      for i := 0 to |recentRequests|
        invariant count == |Window(recentRequests[..i], who, since)|
      {
        var record := recentRequests[i];
        assert recentRequests[..i + 1] == recentRequests[..i] + [record];
        if record.epoch > since && Matches(record, who) {
          count := count + 1;
        }
      }
      assert recentRequests[..|recentRequests|] == recentRequests;
    }

    /** `on_request`: for an API request, counts the requester's rows of the
        last minute and sends the request to the rate-limited route when the
        allowance is used up. The table is only read. */
    method OnRequest(request: Request, now: Instant, keyHashes: set<string>, library: Library)
      returns (completion: Completion)
      modifies request
      ensures request.headers == old(request.headers) && request.remote == old(request.remote)
      ensures completion.Panicked? <==>
        IsApiUri(old(request.uri)) && RequesterOf(request.headers, request.remote, keyHashes, library).None?
      ensures completion.Done? ==>
        request.uri == UriAfterRequest(recentRequests, old(request.uri), request.headers, request.remote, now, keyHashes, library)
      ensures completion.Panicked? ==> request.uri == old(request.uri)
    {
      if !IsApiUri(request.uri) {
        return Done;
      }
      var oneMinuteAgo := now - OneMinute;

      var apiKeyOption := ApiKeyHash(request.headers, keyHashes, library);
      if apiKeyOption.Some? {
        var requestsLastMinute := CountRecent(ByKey(apiKeyOption.value), oneMinuteAgo);
        if requestsLastMinute >= ApiKeyAllowedRequestsPerMinute {
          request.uri := RateLimitedUri;
        }
      } else {
        var ip := ClientIp(request.headers, request.remote, library);
        if ip.None? {
          return Panicked;
        }
        var requestsLastMinute := CountRecent(ByIp(ip.value), oneMinuteAgo);
        if requestsLastMinute >= UnauthenticatedAllowedRequestsPerMinute {
          request.uri := RateLimitedUri;
        }
      }
      return Done;
    }

    /** `on_response`: for an API request, inserts one row stamped `now` for
        the requester, then deletes every row older than a minute. */
    method OnResponse(request: Request, now: Instant, keyHashes: set<string>, library: Library)
      returns (completion: Completion)
      modifies this
      ensures completion.Panicked? <==>
        IsApiUri(request.uri) && RequesterOf(request.headers, request.remote, keyHashes, library).None?
      ensures recentRequests ==
        TableAfterResponse(old(recentRequests), request.uri, request.headers, request.remote, now, keyHashes, library)
    {
      if !IsApiUri(request.uri) {
        return Done;
      }

      var apiKeyOption := ApiKeyHash(request.headers, keyHashes, library);
      if apiKeyOption.Some? {
        recentRequests := recentRequests + [RecentRequest(None, Some(apiKeyOption.value), now)];
      } else {
        var ip := ClientIp(request.headers, request.remote, library);
        if ip.None? {
          return Panicked;
        }
        recentRequests := recentRequests + [RecentRequest(Some(ip.value), None, now)];
      }

      var oneMinuteAgo := now - OneMinute;
      var kept := [];
      for i := 0 to |recentRequests|
        invariant kept == Pruned(recentRequests[..i], oneMinuteAgo)
      {
        var record := recentRequests[i];
        assert recentRequests[..i + 1] == recentRequests[..i] + [record];
        if !(record.epoch < oneMinuteAgo) {
          kept := kept + [record];
        }
      }
      assert recentRequests[..|recentRequests|] == recentRequests;
      recentRequests := kept;
      return Done;
    }
  }

  /** The window holds exactly the rows of the requester newer than `since`,
      each as often as the table does. */
  lemma {:induction false} WindowExact(records: seq<RecentRequest>, who: Requester, since: Instant)
    ensures forall r :: multiset(Window(records, who, since))[r]
                        == if r.epoch > since && Matches(r, who) then multiset(records)[r] else 0
  {
    if records != [] {
      var init, last := records[..|records| - 1], records[|records| - 1];
      WindowExact(init, who, since);
      assert records == init + [last];
    }
  }

  /** Pruning removes exactly the rows older than the cutoff. */
  lemma {:induction false} PrunedExact(records: seq<RecentRequest>, cutoff: Instant)
    ensures forall r :: multiset(Pruned(records, cutoff))[r]
                        == if r.epoch >= cutoff then multiset(records)[r] else 0
  {
    if records != [] {
      var init, last := records[..|records| - 1], records[|records| - 1];
      PrunedExact(init, cutoff);
      assert records == init + [last];
    }
  }

  /** Pruning never changes what a later count sees: the rows it removes are
      too old for any window starting at the cutoff or later. */
  lemma {:induction false} PruneKeepsWindow(records: seq<RecentRequest>, cutoff: Instant, who: Requester, since: Instant)
    requires since >= cutoff
    ensures Window(Pruned(records, cutoff), who, since) == Window(records, who, since)
  {
    if records != [] {
      var init, last := records[..|records| - 1], records[|records| - 1];
      PruneKeepsWindow(init, cutoff, who, since);
      var pruned := Pruned(init, cutoff) + (if last.epoch < cutoff then [] else [last]);
      if last.epoch >= cutoff {
        assert pruned[..|pruned| - 1] == Pruned(init, cutoff);
      } else {
        assert pruned == Pruned(init, cutoff);
      }
    }
  }

  lemma WindowSnoc(records: seq<RecentRequest>, record: RecentRequest, who: Requester, since: Instant)
    ensures Window(records + [record], who, since) ==
      Window(records, who, since) + (if record.epoch > since && Matches(record, who) then [record] else [])
  {
    assert (records + [record])[..|records|] == records;
  }

  /** A recorded response counts once against its own requester in every
      window that covers `now` and starts no earlier than a minute before it,
      and not at all against anyone else. */
  lemma ResponseCountsOnce(records: seq<RecentRequest>, who: Requester, now: Instant, other: Requester, since: Instant)
    requires now - OneMinute <= since < now
    ensures |Window(Pruned(records + [RecordFor(who, now)], now - OneMinute), who, since)|
      == |Window(records, who, since)| + 1
    ensures other != who ==>
      Window(Pruned(records + [RecordFor(who, now)], now - OneMinute), other, since) == Window(records, other, since)
  {
    PruneKeepsWindow(records + [RecordFor(who, now)], now - OneMinute, who, since);
    PruneKeepsWindow(records + [RecordFor(who, now)], now - OneMinute, other, since);
    WindowSnoc(records, RecordFor(who, now), who, since);
    WindowSnoc(records, RecordFor(who, now), other, since);
  }

  /** A request that `on_request` limited is not under "/api/" any more, so
      `on_response` records nothing for it: limited requests do not count. */
  lemma LimitedRequestsNotRecorded(records: seq<RecentRequest>, uri: string, headers: Headers, remote: Option<IpAddr>,
                                   now: Instant, later: Instant, keyHashes: set<string>, library: Library)
    requires UriAfterRequest(records, uri, headers, remote, now, keyHashes, library) != uri
    ensures UriAfterRequest(records, uri, headers, remote, now, keyHashes, library) == RateLimitedUri
    ensures TableAfterResponse(records, RateLimitedUri, headers, remote, later, keyHashes, library) == records
  {
    assert RateLimitedUri[..|ApiPrefix|] != ApiPrefix by {
      assert RateLimitedUri[1] != ApiPrefix[1];
    }
  }

  /** Requests outside "/api/" are neither limited nor recorded. */
  lemma NonApiUntouched(records: seq<RecentRequest>, uri: string, headers: Headers, remote: Option<IpAddr>,
                        now: Instant, keyHashes: set<string>, library: Library)
    requires !IsApiUri(uri)
    ensures UriAfterRequest(records, uri, headers, remote, now, keyHashes, library) == uri
    ensures TableAfterResponse(records, uri, headers, remote, now, keyHashes, library) == records
  {
  }
}
