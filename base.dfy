/**
 * The REST request base (src/api/base.ts): the per-account request context,
 * the header set, the request options and URL composition, and the uniform
 * "absent on failure" response policy shared by every endpoint.
 *
 * fetch itself is a stub: an operation returns the requests it would issue
 * together with its result, and the server's answer is an input.
 */
module Base {
  import opened Wrappers
  import opened Json

  /** The constructor argument; userId and proxy may be absent. */
  datatype BaseConfig = BaseConfig(
    userAgent: string,
    domain: string,
    startupData: Option<string>,
    origin: string,
    userId: Option<int>,
    jwt: Option<string>,
    proxy: Option<string>)

  /** The fields a request object holds once constructed. */
  datatype Client = Client(
    userAgent: string,
    domain: string,
    startupData: Option<string>,
    origin: string,
    userId: int,
    jwt: Option<string>,
    proxy: string)

  /** The constructor: `userId ?? 0` and `proxy || ""`. */
  function NewClient(cfg: BaseConfig): (c: Client)
    ensures c.userId == (if cfg.userId.Some? then cfg.userId.value else 0)
    ensures c.proxy == (if Held(cfg.proxy) then cfg.proxy.value else "")
    ensures c.userAgent == cfg.userAgent && c.domain == cfg.domain && c.origin == cfg.origin
    ensures c.startupData == cfg.startupData && c.jwt == cfg.jwt
  {
    Client(cfg.userAgent, cfg.domain, cfg.startupData, cfg.origin,
           cfg.userId.GetOr(0), cfg.jwt, if Held(cfg.proxy) then cfg.proxy.value else "")
  }

  /** The request headers the client sets; HeaderName gives each one's name on the wire. */
  datatype Header =
    | Accept | AcceptEncoding | AcceptLanguage | ContentType
    | SecFetchDest | SecFetchMode | SecFetchSite
    | Referer | Origin | UserAgent
    | Token

  function HeaderName(h: Header): string {
    match h
    case Accept => "Accept"
    case AcceptEncoding => "Accept-Encoding"
    case AcceptLanguage => "Accept-Language"
    case ContentType => "Content-Type"
    case SecFetchDest => "Sec-Fetch-Dest"
    case SecFetchMode => "Sec-Fetch-Mode"
    case SecFetchSite => "Sec-Fetch-Site"
    case Referer => "Referer"
    case Origin => "Origin"
    case UserAgent => "User-Agent"
    case Token => "X-Telegram-Api-Secret-Token"
  }

  /** The fixed header values. */
  const AcceptValue := "application/json, text/plain, */*"
  const AcceptEncodingValue := "gzip, deflate, br, zstd"
  const AcceptLanguageValue := "ru,en;q=0.9,ro;q=0.8,zh;q=0.7,th;q=0.6,es;q=0.5,it;q=0.4,ar;q=0.3,fr;q=0.2"

  /** The headers every request carries, whatever the account: all but the token. */
  const FixedHeaderNames: set<Header> := {
    Accept, AcceptEncoding, AcceptLanguage, ContentType,
    SecFetchDest, SecFetchMode, SecFetchSite,
    Referer, Origin, UserAgent
  }

  function FixedHeaders(c: Client): (h: map<Header, string>)
    ensures h.Keys == FixedHeaderNames
  {
    map[
      Accept := AcceptValue,
      AcceptEncoding := AcceptEncodingValue,
      AcceptLanguage := AcceptLanguageValue,
      ContentType := "application/json",
      SecFetchDest := "empty",
      SecFetchMode := "cors",
      SecFetchSite := "same-origin",
      Referer := c.origin + "/",
      Origin := c.origin,
      UserAgent := c.userAgent
    ]
  }

  /** getHeaders: the fixed browser-like set, plus the token header when a token is held. */
  function GetHeaders(c: Client): (h: map<Header, string>)
    ensures h.Keys == FixedHeaderNames + (if Held(c.jwt) then {Token} else {})
    ensures Held(c.jwt) ==> h[Token] == c.jwt.value
    ensures h[Referer] == c.origin + "/" && h[Origin] == c.origin
    ensures h[UserAgent] == c.userAgent
    ensures h[ContentType] == "application/json"
    ensures h[Accept] == AcceptValue && h[AcceptEncoding] == AcceptEncodingValue && h[AcceptLanguage] == AcceptLanguageValue
    ensures h[SecFetchDest] == "empty" && h[SecFetchMode] == "cors" && h[SecFetchSite] == "same-origin"
  {
    var fixed := FixedHeaders(c);
    if Held(c.jwt) then fixed[Token := c.jwt.value] else fixed
  }

  /** The keys of the fetch options object that the client uses. */
  datatype OptKey = MethodOpt | BodyOpt | HeadersOpt | ProxyOpt

  /** A value of the fetch options object. */
  datatype Opt =
    | Text(s: string)
    | HeaderMap(h: map<Header, string>)
    | JsonBody(v: Value)   // the string JSON.stringify(v)

  type Options = map<OptKey, Opt>

  /** getRequestOpts: the headers and the proxy. */
  function GetRequestOpts(c: Client): (o: Options)
    ensures forall k :: k in o <==> k == HeadersOpt || k == ProxyOpt
    ensures o[HeadersOpt] == HeaderMap(GetHeaders(c)) && o[ProxyOpt] == Text(c.proxy)
  {
    map[HeadersOpt := HeaderMap(GetHeaders(c)), ProxyOpt := Text(c.proxy)]
  }

  /** One call of fetch(url, init). */
  datatype Fetch = Fetch(url: string, init: Options)

  /**
   * request: fetch("https://" + domain + pathname, { ...opts, ...getRequestOpts() }).
   * The spread puts the account's headers and proxy over the caller's; every
   * other option (method, body) is kept.
   */
  function Request(c: Client, pathname: string, opts: Options): (f: Fetch)
    ensures f.url == "https://" + c.domain + pathname
    ensures forall k :: k in f.init <==> k in opts || k == HeadersOpt || k == ProxyOpt
    ensures f.init[HeadersOpt] == HeaderMap(GetHeaders(c)) && f.init[ProxyOpt] == Text(c.proxy)
    ensures forall k :: k in opts && k != HeadersOpt && k != ProxyOpt ==> f.init[k] == opts[k]
  {
    Fetch("https://" + c.domain + pathname, opts + GetRequestOpts(c))
  }

  /** The options of a POST with a JSON body. */
  function Post(body: Value): Options {
    map[MethodOpt := Text("POST"), BodyOpt := JsonBody(body)]
  }

  /** The JSON body `{ userId }`. */
  function UserIdBody(c: Client): Value {
    Obj(map["userId" := Num(c.userId)])
  }

  /**
   * A parsed response body: its `error` field (Undefined when the key is
   * absent; JSON cannot hold undefined, so the key is present exactly when
   * it is not Undefined) and the endpoint's content.
   */
  datatype Body<T> = Unparsable | Parsed(error: Value, content: T)

  /** What fetch resolves to: a transport failure (fetch throws) or a status and a body. */
  datatype Response<T> = NetworkFailure | Response(status: int, body: Body<T>)

  /** One call of `request(pathname, opts)` by a client; Issued gives the fetch it performs. */
  datatype Sent = Sent(client: Client, pathname: string, opts: Options)

  function Issued(s: Sent): Fetch {
    Request(s.client, s.pathname, s.opts)
  }

  /** A request issued without a method option is a GET, and carries the token header exactly when its client holds a token. */
  lemma IssuedGet(s: Sent)
    requires MethodOpt !in s.opts
    ensures MethodOpt !in Issued(s).init
    ensures var h := Issued(s).init[HeadersOpt].h;
      (Token in h <==> Held(s.client.jwt)) && (Held(s.client.jwt) ==> h[Token] == s.client.jwt.value)
  {
  }

  /** The requests an operation issued, and what it returned (None for `undefined`). */
  datatype Call<T> = Call(sent: seq<Sent>, result: Option<T>)

  /** How an endpoint tests the body's error field. */
  datatype ErrorTest =
    | TruthyError      // if (data.error) throw
    | ErrorKeyPresent  // if (data.hasOwnProperty("error")) throw

  predicate Fails(test: ErrorTest, error: Value) {
    match test
    case TruthyError => Truthy(error)
    case ErrorKeyPresent => error != Undefined
  }

  /**
   * The shared try/catch policy: a transport failure, a status 500 (for
   * endpoints that read the text and throw), an unparsable body or a failing
   * error field all become None; otherwise the parsed body is returned unchanged.
   */
  function Settle<T>(resp: Response<T>, rejects500: bool, test: ErrorTest): (r: Option<T>)
    ensures r.Some? <==>
      resp.Response? && !(rejects500 && resp.status == 500) &&
      resp.body.Parsed? && !Fails(test, resp.body.error)
    ensures r.Some? ==> r.value == resp.body.content
  {
    if resp.NetworkFailure? then None
    else if rejects500 && resp.status == 500 then None
    else if resp.body.Unparsable? then None
    else if Fails(test, resp.body.error) then None
    else Some(resp.body.content)
  }

  /** Requiring the error key to be absent rejects every body a truthy-error test rejects, and more. */
  lemma KeyTestStricter<T>(resp: Response<T>, rejects500: bool)
    ensures Settle(resp, rejects500, ErrorKeyPresent).Some? ==> Settle(resp, rejects500, TruthyError).Some?
    ensures resp.Response? && resp.status != 500 && resp.body.Parsed? && resp.body.error == Null ==>
      Settle(resp, rejects500, TruthyError).Some? && Settle(resp, rejects500, ErrorKeyPresent).None?
  {
  }
}
