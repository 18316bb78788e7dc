/** The API client: construction with validated credentials and default
    endpoints, the single-slot access-token cache behind `authenticate`, and
    the authenticate-before-query guard of `RunQuery`.

    Instants are nanoseconds on one integer axis. The clock, the token
    endpoint's answer and the GraphQL transport's answer are parameters. */
module Client {
  import opened Values

  const DefaultAPIURL: string := "https://api.eu1.demo.wiz.io/graphql"
  const DefaultAuthURL: string := "https://auth.demo.wiz.io/oauth/token"

  /** `time.Second` in nanoseconds. */
  const NanosPerSecond: int := 1_000_000_000

  /** The provider's client settings; `NewClient` fills in missing URLs in place. */
  class Config {
    var clientID: string
    var clientSecret: string
    var apiURL: string
    var authURL: string

    constructor (clientID: string, clientSecret: string, apiURL: string, authURL: string)
      ensures this.clientID == clientID && this.clientSecret == clientSecret
      ensures this.apiURL == apiURL && this.authURL == authURL
    {
      this.clientID := clientID;
      this.clientSecret := clientSecret;
      this.apiURL := apiURL;
      this.authURL := authURL;
    }
  }

  /** The form-encoded client-credentials request sent to the token endpoint. */
  datatype TokenRequest = TokenRequest(url: string, form: map<string, string>)

  function TokenForm(clientID: string, clientSecret: string): map<string, string>
  {
    map["grant_type" := "client_credentials", "audience" := "wiz-api",
        "client_id" := clientID, "client_secret" := clientSecret]
  }

  /** What the token endpoint exchange produced, in the order the source
      checks it: building the request, sending it, then the response. */
  datatype Exchange =
    | RequestFailed(cause: Error)
    | TransportFailed(cause: Error)
    | Responded(status: int, body: Body)

  /** Reading and decoding a response body. A successful decode may carry an
      empty token or a non-positive lifetime: the source stores them as they are. */
  datatype Body =
    | ReadFailed(cause: Error)
    | Malformed(cause: Error)
    | Granted(accessToken: string, expiresIn: int)

  function DigitChar(d: nat): char
    requires d < 10
  {
    "0123456789"[d]
  }

  function Digits(n: nat): string
  {
    if n < 10 then [DigitChar(n)] else Digits(n / 10) + [DigitChar(n % 10)]
  }

  /** `%d` of an integer. */
  function Decimal(n: int): string
  {
    if n < 0 then "-" + Digits(-n) else Digits(n)
  }

  /** The error `authenticate` returns for an exchange, None when it yields a token. */
  function ExchangeError(exchange: Exchange): (r: Option<Error>)
    ensures r.None? <==> exchange.Responded? && exchange.status == 200 && exchange.body.Granted?
    ensures exchange.RequestFailed? ==>
              r == Some(Wrap("error creating authentication request", exchange.cause))
    ensures exchange.TransportFailed? ==> r == Some(Wrap("error authenticating", exchange.cause))
    ensures exchange.Responded? && exchange.status != 200 ==>
              r == Some(Fail("error authenticating, status code: " + Decimal(exchange.status)))
    ensures exchange.Responded? && exchange.status == 200 && exchange.body.ReadFailed? ==>
              r == Some(Wrap("error reading authentication response", exchange.body.cause))
    ensures exchange.Responded? && exchange.status == 200 && exchange.body.Malformed? ==>
              r == Some(Wrap("error parsing authentication response", exchange.body.cause))
  {
    match exchange
    case RequestFailed(e) => Some(Wrap("error creating authentication request", e))
    case TransportFailed(e) => Some(Wrap("error authenticating", e))
    case Responded(status, body) =>
      if status != 200 then Some(Fail("error authenticating, status code: " + Decimal(status)))
      else match body
        case ReadFailed(e) => Some(Wrap("error reading authentication response", e))
        case Malformed(e) => Some(Wrap("error parsing authentication response", e))
        case Granted(_, _) => None
  }

  class Client {
    const config: Config
    /** The URL the GraphQL client was created with. */
    const endpoint: string
    var token: string
    /** Go's zero `time.Time` is taken as instant 0; it is only read when
        `token` is non-empty, so its value never matters before the first exchange. */
    var tokenExpiry: int

    constructor (config: Config)
      ensures this.config == config && endpoint == config.apiURL
      ensures token == "" && tokenExpiry == 0
    {
      this.config := config;
      endpoint := config.apiURL;
      token := "";
      tokenExpiry := 0;
    }

    /** The cache check: a stored token that has not yet expired at `now`. */
    predicate Cached(now: int)
      reads this
    {
      token != "" && now < tokenExpiry
    }

    /** `authenticate`. `now` is the clock read by the cache check and
        `issuedAt` the one read when the new expiry is computed. `request` is
        the token request once it has been built; a request that could not be
        built is None. */
    method Authenticate(now: int, exchange: Exchange, issuedAt: int)
      returns (err: Option<Error>, request: Option<TokenRequest>)
      modifies this
      // cache hit: no exchange and nothing changes
      ensures old(Cached(now)) ==>
                err.None? && request.None? && token == old(token) && tokenExpiry == old(tokenExpiry)
      // cache miss (including an empty token, whatever the expiry): one exchange
      ensures !old(Cached(now)) ==> err == ExchangeError(exchange)
      // a request exists exactly when the miss got past building it
      ensures request.Some? <==> !old(Cached(now)) && !exchange.RequestFailed?
      ensures request.Some? ==>
                request.value == TokenRequest(config.authURL, TokenForm(config.clientID, config.clientSecret))
      ensures !old(Cached(now)) && err.None? ==>
                && token == exchange.body.accessToken
                && tokenExpiry == issuedAt + exchange.body.expiresIn * NanosPerSecond
      // every failure leaves the slot untouched
      ensures err.Some? ==> token == old(token) && tokenExpiry == old(tokenExpiry)
    {
      if token != "" && now < tokenExpiry {
        return None, None;
      }
      request := Some(TokenRequest(config.authURL, TokenForm(config.clientID, config.clientSecret)));
      match exchange {
        case RequestFailed(e) =>
          request := None;
          err := Some(Wrap("error creating authentication request", e));
        case TransportFailed(e) =>
          err := Some(Wrap("error authenticating", e));
        case Responded(status, body) =>
          if status != 200 {
            err := Some(Fail("error authenticating, status code: " + Decimal(status)));
          } else {
            match body {
              case ReadFailed(e) =>
                err := Some(Wrap("error reading authentication response", e));
              case Malformed(e) =>
                err := Some(Wrap("error parsing authentication response", e));
              case Granted(accessToken, expiresIn) =>
                token := accessToken;
                tokenExpiry := issuedAt + expiresIn * NanosPerSecond;
                err := None;
            }
          }
      }
    }

    /** `RunQuery`: authenticate, then send the query with the bearer header.
        `run` is what the GraphQL transport returns; `bearer` is the
        Authorization header of the query, None when no query was sent. */
    method RunQuery(now: int, exchange: Exchange, issuedAt: int, run: Option<Error>)
      returns (err: Option<Error>, bearer: Option<string>)
      modifies this
      ensures var authErr := if old(Cached(now)) then None else ExchangeError(exchange);
              && (authErr.Some? ==> err == authErr && bearer.None?)
              && (authErr.None? ==> err == run && bearer == Some("Bearer " + token))
      // the token slot: kept on a cache hit, replaced by a successful exchange,
      // untouched by a failed one
      ensures old(Cached(now)) ==> token == old(token) && tokenExpiry == old(tokenExpiry)
      ensures !old(Cached(now)) && ExchangeError(exchange).None? ==>
                && token == exchange.body.accessToken
                && tokenExpiry == issuedAt + exchange.body.expiresIn * NanosPerSecond
      ensures !old(Cached(now)) && ExchangeError(exchange).Some? ==>
                token == old(token) && tokenExpiry == old(tokenExpiry)
    {
      var authErr, _ := Authenticate(now, exchange, issuedAt);
      if authErr.Some? {
        return authErr, None;
      }
      bearer := Some("Bearer " + token);
      err := run;
    }
  }

  /** `NewClient`: both credentials are required; an empty API or token URL
      is replaced, in the caller's configuration, by the default. */
  method NewClient(config: Config) returns (client: Client?, err: Option<Error>)
    modifies config
    ensures (old(config.clientID) == "" || old(config.clientSecret) == "") ==>
              && client == null
              && err == Some(Fail("client_id and client_secret are required"))
              && unchanged(config)
    ensures (old(config.clientID) != "" && old(config.clientSecret) != "") ==>
              && err.None? && client != null && fresh(client)
              && client.config == config && client.endpoint == config.apiURL
              && client.token == ""
              && config.clientID == old(config.clientID)
              && config.clientSecret == old(config.clientSecret)
              && config.apiURL == (if old(config.apiURL) == "" then DefaultAPIURL else old(config.apiURL))
              && config.authURL == (if old(config.authURL) == "" then DefaultAuthURL else old(config.authURL))
  {
    if config.clientID == "" || config.clientSecret == "" {
      return null, Some(Fail("client_id and client_secret are required"));
    }
    if config.apiURL == "" {
      config.apiURL := DefaultAPIURL;
    }
    if config.authURL == "" {
      config.authURL := DefaultAuthURL;
    }
    client := new Client(config);
    err := None;
  }

  /** While the stored token is valid, a query carries that token and the
      token endpoint's answer plays no part. */
  method CachedQueryUsesStoredToken(c: Client, now: int, exchange: Exchange, issuedAt: int,
                                    run: Option<Error>)
    returns (err: Option<Error>, bearer: Option<string>)
    requires c.Cached(now)
    modifies c
    ensures err == run && bearer == Some("Bearer " + old(c.token))
    ensures c.token == old(c.token) && c.tokenExpiry == old(c.tokenExpiry)
  {
    err, bearer := c.RunQuery(now, exchange, issuedAt, run);
  }

  /** From an absent or expired token: one exchange stores the new token and
      its expiry, and a later `authenticate` within that lifetime makes no
      exchange and keeps the token. */
  method TokenReusedUntilExpiry(c: Client, now: int, accessToken: string, expiresIn: int,
                                issuedAt: int, later: int, next: Exchange, nextIssuedAt: int)
    returns (first: Option<TokenRequest>, second: Option<TokenRequest>)
    requires !c.Cached(now)
    requires accessToken != ""
    requires later < issuedAt + expiresIn * NanosPerSecond
    modifies c
    ensures first.Some? && second.None?
    ensures c.token == accessToken && c.tokenExpiry == issuedAt + expiresIn * NanosPerSecond
  {
    var err1, err2;
    err1, first := c.Authenticate(now, Responded(200, Granted(accessToken, expiresIn)), issuedAt);
    err2, second := c.Authenticate(later, next, nextIssuedAt);
  }
}
