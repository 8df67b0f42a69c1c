/** The parts of an HTTP request the guards and the rate limiter look at,
    and the library functions they call (SHA-256 with hex encoding, IP
    address parsing), which are parameters of the model. */
module Http {
  import opened Optional
  import opened Numbers

  /** An IP address: 4 bytes for IPv4, 16 for IPv6. */
  datatype IpAddr = IpAddr(bytes: seq<U8>)

  /** Header values by header name. */
  type Headers = map<string, string>

  const RealIpHeader: string := "X-Real-IP"
  const ReverseProxyKeyHeader: string := "X-Reverse-Proxy-Key"
  const AuthorizationHeader: string := "Authorization"

  /** `headers().get_one(name)`. */
  function GetOne(headers: Headers, name: string): (r: Option<string>)
    ensures r.Some? <==> name in headers
    ensures r.Some? ==> r.value == headers[name]
  {
    if name in headers then Some(headers[name]) else None
  }

  /** `hex::encode(Sha256::digest(..))` and `str::parse::<IpAddr>`. */
  datatype Library = Library(sha256Hex: string -> string, parseIp: string -> Option<IpAddr>)

  /** A request in flight; the rate limiter rewrites its URI in place. */
  class Request {
    var uri: string
    var headers: Headers
    var remote: Option<IpAddr>

    constructor (uri: string, headers: Headers, remote: Option<IpAddr>)
      ensures this.uri == uri && this.headers == headers && this.remote == remote
    {
      this.uri := uri;
      this.headers := headers;
      this.remote := remote;
    }
  }
}
