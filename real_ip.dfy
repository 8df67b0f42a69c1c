/** The `RealIpAddr` request guard (src/request_guards/ip.rs): the client's
    address, taken from `X-Real-IP` only when the request proves it came
    through the configured reverse proxy. */
module RealIp {
  import opened Optional
  import opened Http

  datatype RealIpAddrError = XHeaderMissing | FailedToParse | ReverseProxyKeyMissing | ReverseProxyKeyInvalid | RemoteFailed

  /** HTTP 500, the status of every failure of this guard. */
  const InternalServerError: nat := 500

  datatype Outcome = Success(ipAddr: IpAddr) | Error(status: nat, error: RealIpAddrError)

  /** `from_request`. `keyHash` is the `REVERSE_PROXY_KEY_HASH` environment
      variable. */
  function FromRequest(keyHash: Option<string>, headers: Headers, remote: Option<IpAddr>, library: Library): (r: Outcome)
    ensures r.Error? ==> r.status == InternalServerError
  {
    if keyHash.Some? then
      var providedKey := GetOne(headers, ReverseProxyKeyHeader);
      if providedKey.None? then Error(InternalServerError, ReverseProxyKeyMissing)
      else if library.sha256Hex(providedKey.value) != keyHash.value then Error(InternalServerError, ReverseProxyKeyInvalid)
      else
        var realIp := GetOne(headers, RealIpHeader);
        if realIp.None? then Error(InternalServerError, XHeaderMissing)
        else
          var parsedIp := library.parseIp(realIp.value);
          if parsedIp.None? then Error(InternalServerError, FailedToParse)
          else Success(parsedIp.value)
    else if GetOne(headers, RealIpHeader).Some? then Error(InternalServerError, ReverseProxyKeyMissing)
    else if remote.Some? then Success(remote.value)
    else Error(InternalServerError, RemoteFailed)
  }

  /** The request carries the key whose hash is configured. */
  predicate ProvesProxy(keyHash: Option<string>, headers: Headers, library: Library)
  {
    keyHash.Some? && ReverseProxyKeyHeader in headers
    && library.sha256Hex(headers[ReverseProxyKeyHeader]) == keyHash.value
  }

  /** The guard succeeds with the `X-Real-IP` address exactly for a request
      that proves the proxy and carries a parsable header, and with the
      connection's address exactly for a request without key configuration
      and without the header; it never trusts the header otherwise. */
  lemma SuccessIff(keyHash: Option<string>, headers: Headers, remote: Option<IpAddr>, library: Library, ip: IpAddr)
    ensures FromRequest(keyHash, headers, remote, library) == Success(ip) <==>
      (ProvesProxy(keyHash, headers, library) && RealIpHeader in headers && library.parseIp(headers[RealIpHeader]) == Some(ip))
      || (keyHash.None? && RealIpHeader !in headers && remote == Some(ip))
  {
  }

  /** With a key configured, the checks fail in order: no key, a wrong key,
      no `X-Real-IP`, an unparsable one. */
  lemma ConfiguredKeyFailures(keyHash: string, headers: Headers, remote: Option<IpAddr>, library: Library)
    ensures ReverseProxyKeyHeader !in headers ==>
      FromRequest(Some(keyHash), headers, remote, library) == Error(InternalServerError, ReverseProxyKeyMissing)
    ensures ReverseProxyKeyHeader in headers && library.sha256Hex(headers[ReverseProxyKeyHeader]) != keyHash ==>
      FromRequest(Some(keyHash), headers, remote, library) == Error(InternalServerError, ReverseProxyKeyInvalid)
    ensures ProvesProxy(Some(keyHash), headers, library) && RealIpHeader !in headers ==>
      FromRequest(Some(keyHash), headers, remote, library) == Error(InternalServerError, XHeaderMissing)
    ensures ProvesProxy(Some(keyHash), headers, library) && RealIpHeader in headers
            && library.parseIp(headers[RealIpHeader]).None? ==>
      FromRequest(Some(keyHash), headers, remote, library) == Error(InternalServerError, FailedToParse)
  {
  }

  /** Without a configured key, an `X-Real-IP` header is refused as a
      missing key, and otherwise only a missing connection address fails. */
  lemma UnconfiguredFailures(headers: Headers, remote: Option<IpAddr>, library: Library)
    ensures RealIpHeader in headers ==>
      FromRequest(None, headers, remote, library) == Error(InternalServerError, ReverseProxyKeyMissing)
    ensures RealIpHeader !in headers && remote.None? ==>
      FromRequest(None, headers, remote, library) == Error(InternalServerError, RemoteFailed)
  {
  }
}
