/** The HTTP request layer and the typed operations of the trakt.tv client
    (api/api.go). A request is assembled as a value; sending it is left to a
    transport, given here as the response (or transport error) it produced,
    and the response body is already decoded into `Option<T>`: `None` stands
    for a body the JSON decoder rejected. */
module Api {
  import opened Wrappers
  import opened Text
  import opened Multimaps

  const Endpoint: string := "https://api.trakt.tv"

  /** Credentials read from the configuration file (also the shape `auth` writes). */
  datatype Credentials = Credentials(clientId: string, clientSecret: string, accessToken: string)

  datatype Client = Client(endpoint: string, credentials: Credentials)

  datatype Error =
    | TransportError(cause: string)            // http.NewRequest or Client.Do failed
    | StatusError(context: string, status: int) // a non-200 status, reported with its status code
    | DecodeError                               // the JSON body did not decode

  datatype Method = Get | Post

  /** The request bodies the client sends, before JSON encoding. */
  datatype Payload =
    | DeviceCodeBody(clientId: string)
    | DeviceTokenBody(code: string, clientId: string, clientSecret: string)

  datatype PaginationParams = PaginationParams(page: int, limit: int)

  datatype RequestParams = RequestParams(
    verb: Method,
    path: string,
    body: Option<Payload>,
    auth: bool,
    pagination: PaginationParams,
    query: map<string, string>)

  /** What `doRequest` hands to the transport. */
  datatype Request = Request(
    verb: Method,
    url: string,
    header: Multimap,
    query: Multimap,
    body: Option<Payload>)

  /** A response whose body has been run through the JSON decoder. */
  datatype Response<T> = Response(status: int, header: Multimap, body: Option<T>)

  /** What the transport produced for one request. */
  type Outcome<T> = Result<Response<T>, Error>

  /** `NewAPIClient`. Locating, reading and parsing the configuration file is
      outside the model; `loaded` is `None` when any of those steps failed, in
      which case the program stops with a "please run `trakt auth`" message. */
  const ConfigMissing := "Failed to read config file, please run `trakt auth`"

  function NewClient(loaded: Option<Credentials>): (r: Option<Client>)
    ensures r.Some? <==> loaded.Some?
    ensures r.Some? ==> r.value == Client(Endpoint, loaded.value)
  {
    match loaded
    case None => None
    case Some(creds) => Some(Client(Endpoint, creds))
  }

  // ---------------------------------------------------------------------------
  // Request assembly (doRequest)
  // ---------------------------------------------------------------------------

  /** The header keys `doRequest` sets, as a function of the body and auth flags. */
  function HeaderKeys(hasBody: bool, auth: bool): set<string> {
    {"Accept", "trakt-api-version"}
    + (if hasBody then {"Content-Type"} else {})
    + (if auth then {"trakt-api-key", "Authorization"} else {})
  }

  /** The five header names are distinct, so each flag governs its own keys. */
  lemma HeaderKeysMembership(hasBody: bool, auth: bool)
    ensures "Accept" in HeaderKeys(hasBody, auth) && "trakt-api-version" in HeaderKeys(hasBody, auth)
    ensures "Content-Type" in HeaderKeys(hasBody, auth) <==> hasBody
    ensures "trakt-api-key" in HeaderKeys(hasBody, auth) <==> auth
    ensures "Authorization" in HeaderKeys(hasBody, auth) <==> auth
  {
    assert "Content-Type"[0] != "Accept"[0] && "Content-Type"[0] != "trakt-api-version"[0];
    assert "Content-Type"[0] != "trakt-api-key"[0] && "Content-Type"[0] != "Authorization"[0];
    assert |"Authorization"| != |"Accept"| && "Authorization"[0] != "trakt-api-version"[0];
    assert "trakt-api-key"[0] != "Accept"[0] && |"trakt-api-key"| != |"trakt-api-version"|;
  }

  function BuildHeader(c: Client, hasBody: bool, auth: bool): (h: Multimap)
    ensures h.Keys == HeaderKeys(hasBody, auth)
    ensures Values(h, "Accept") == ["application/json"]
    ensures Values(h, "trakt-api-version") == ["2"]
    ensures Values(h, "Content-Type") == (if hasBody then ["application/json"] else [])
    ensures Values(h, "trakt-api-key") == (if auth then [c.credentials.clientId] else [])
    ensures Values(h, "Authorization") == (if auth then ["Bearer " + c.credentials.accessToken] else [])
  {
    var h0 := Add(Add(map[], "Accept", "application/json"), "trakt-api-version", "2");
    var h1 := if hasBody then Add(h0, "Content-Type", "application/json") else h0;
    if auth then
      Add(Add(h1, "trakt-api-key", c.credentials.clientId), "Authorization", "Bearer " + c.credentials.accessToken)
    else h1
  }

  /** The `page` and `limit` query entries: each only when nonzero, in decimal. */
  function PaginationQuery(p: PaginationParams): (q: Multimap)
    ensures q.Keys <= {"page", "limit"}
    ensures "page" in q <==> p.page != 0
    ensures "limit" in q <==> p.limit != 0
  {
    var q := if p.page != 0 then Add(map[], "page", Decimal(p.page)) else map[];
    if p.limit != 0 then Add(q, "limit", Decimal(p.limit)) else q
  }

  /** `page` is present exactly when `Page != 0`, `limit` exactly when
      `Limit != 0`, each holding the decimal rendering, and nothing else. */
  lemma PaginationQueryEntries(p: PaginationParams)
    ensures var q := PaginationQuery(p);
      && q.Keys <= {"page", "limit"}
      && ("page" in q <==> p.page != 0)
      && ("limit" in q <==> p.limit != 0)
      && Values(q, "page") == (if p.page != 0 then [Decimal(p.page)] else [])
      && Values(q, "limit") == (if p.limit != 0 then [Decimal(p.limit)] else [])
  {
  }

  /** `doRequest` up to the call of `Client.Do`. Go visits `params.query` in an
      unspecified order; `order` is that order. */
  function BuildRequest(c: Client, params: RequestParams, order: seq<string>): (r: Request)
    requires Enumerates(order, params.query)
    ensures r.verb == params.verb && r.url == c.endpoint + params.path && r.body == params.body
    ensures r.header == BuildHeader(c, params.body.Some?, params.auth)
    ensures r.query.Keys == PaginationQuery(params.pagination).Keys + params.query.Keys
    ensures forall k :: Values(r.query, k)
                        == Values(PaginationQuery(params.pagination), k)
                           + (if k in params.query then [params.query[k]] else [])
  {
    var p := PaginationQuery(params.pagination);
    var q := AddEach(p, params.query, order);
    AddEachValues(p, params.query, order);
    assert (set k | k in order) == params.query.Keys;
    Request(params.verb, c.endpoint + params.path, BuildHeader(c, params.body.Some?, params.auth), q, params.body)
  }

  /** The request does not depend on the order in which Go happens to visit
      the extra query map: entries under distinct keys commute. */
  lemma BuildRequestOrderIrrelevant(c: Client, params: RequestParams, o1: seq<string>, o2: seq<string>)
    requires Enumerates(o1, params.query) && Enumerates(o2, params.query)
    ensures BuildRequest(c, params, o1) == BuildRequest(c, params, o2)
  {
    var r1, r2 := BuildRequest(c, params, o1), BuildRequest(c, params, o2);
    SameValuesEqual(r1.query, r2.query);
  }

  /** Every request carries `Accept: application/json` and `trakt-api-version: 2`;
      `Content-Type: application/json` exactly when there is a body; the API key
      and bearer token exactly when `auth` is set. */
  lemma RequestHeaders(c: Client, params: RequestParams, order: seq<string>)
    requires Enumerates(order, params.query)
    ensures var h := BuildRequest(c, params, order).header;
      && Values(h, "Accept") == ["application/json"]
      && Values(h, "trakt-api-version") == ["2"]
      && ("Content-Type" in h <==> params.body.Some?)
      && (params.body.Some? ==> Values(h, "Content-Type") == ["application/json"])
      && ("trakt-api-key" in h <==> params.auth)
      && ("Authorization" in h <==> params.auth)
      && (params.auth ==> Values(h, "trakt-api-key") == [c.credentials.clientId])
      && (params.auth ==> Values(h, "Authorization") == ["Bearer " + c.credentials.accessToken])
  {
    var h := BuildRequest(c, params, order).header;
    assert h == BuildHeader(c, params.body.Some?, params.auth);
    HeaderKeysMembership(params.body.Some?, params.auth);
  }

  /** When the extra query map does not itself use the key, `page` is present
      exactly when `Page != 0`, holding the decimal rendering of `Page`, and
      likewise `limit` for `Limit`. */
  lemma PaginationParamsInQuery(c: Client, params: RequestParams, order: seq<string>)
    requires Enumerates(order, params.query)
    ensures var q := BuildRequest(c, params, order).query;
      && ("page" !in params.query ==>
            && ("page" in q <==> params.pagination.page != 0)
            && (params.pagination.page != 0 ==>
                  Values(q, "page") == [Decimal(params.pagination.page)]
                  && ParseDecimal(Values(q, "page")[0]) == Some(params.pagination.page)))
      && ("limit" !in params.query ==>
            && ("limit" in q <==> params.pagination.limit != 0)
            && (params.pagination.limit != 0 ==>
                  Values(q, "limit") == [Decimal(params.pagination.limit)]
                  && ParseDecimal(Values(q, "limit")[0]) == Some(params.pagination.limit)))
  {
    PaginationQueryEntries(params.pagination);
    DecimalRoundTrip(params.pagination.page);
    DecimalRoundTrip(params.pagination.limit);
  }

  /** Extra query pairs are added, never substituted: every pair is present,
      after whatever pagination entry already sits under the same key. */
  lemma ExtraQueryAppended(c: Client, params: RequestParams, order: seq<string>, k: string)
    requires Enumerates(order, params.query)
    requires k in params.query
    ensures var vs := Values(BuildRequest(c, params, order).query, k);
      && 1 <= |vs| && vs[|vs| - 1] == params.query[k]
      && vs[..|vs| - 1] == Values(PaginationQuery(params.pagination), k)
  {
  }

  // ---------------------------------------------------------------------------
  // Device-code authorisation calls
  // ---------------------------------------------------------------------------

  datatype DeviceCode = DeviceCode(
    deviceCode: string,
    userCode: string,
    verificationUrl: string,
    expiresIn: int,
    interval: int)

  datatype DeviceToken = DeviceToken(
    accessToken: string,
    tokenType: string,
    expiresIn: int,
    refreshToken: string,
    scope: string,
    createdAt: int)

  /** The zero value of the token response. */
  const NoToken := DeviceToken("", "", 0, "", "", 0)

  const NoPagination := PaginationParams(0, 0)

  function DeviceCodeRequest(c: Client, clientId: string): Request {
    BuildRequest(c, RequestParams(Post, "/oauth/device/code", Some(DeviceCodeBody(clientId)), false, NoPagination, map[]), [])
  }

  function DeviceTokenRequest(c: Client, code: string, clientId: string, clientSecret: string): Request {
    BuildRequest(c, RequestParams(Post, "/oauth/device/token", Some(DeviceTokenBody(code, clientId, clientSecret)), false, NoPagination, map[]), [])
  }

  /** Both device-flow requests are unauthenticated JSON POSTs: they never carry
      the API key or bearer token, whatever credentials the client holds, and
      they carry no query. */
  lemma DeviceRequestsUnauthenticated(c: Client, clientId: string, code: string, clientSecret: string)
    ensures var r := DeviceCodeRequest(c, clientId);
      && r.verb == Post && r.url == c.endpoint + "/oauth/device/code"
      && r.body == Some(DeviceCodeBody(clientId)) && r.query == map[]
      && "trakt-api-key" !in r.header && "Authorization" !in r.header
      && Values(r.header, "Content-Type") == ["application/json"]
    ensures var r := DeviceTokenRequest(c, code, clientId, clientSecret);
      && r.verb == Post && r.url == c.endpoint + "/oauth/device/token"
      && r.body == Some(DeviceTokenBody(code, clientId, clientSecret)) && r.query == map[]
      && "trakt-api-key" !in r.header && "Authorization" !in r.header
      && Values(r.header, "Content-Type") == ["application/json"]
  {
  }

  /** `AuthDeviceCode` after the transport: the body is decoded whatever the
      status code is. */
  function DeviceCodeResult(o: Outcome<DeviceCode>): (r: Result<DeviceCode, Error>)
    ensures o.Err? ==> r == Err(o.error)
    ensures o.Ok? && o.value.body.Some? ==> r == Ok(o.value.body.value)
    ensures o.Ok? && o.value.body.None? ==> r == Err(DecodeError)
  {
    match o
    case Err(e) => Err(e)
    case Ok(resp) =>
      match resp.body
      case None => Err(DecodeError)
      case Some(v) => Ok(v)
  }

  /** `AuthDeviceToken` after the transport: a non-200 status means "not yet
      authorised" and yields the zero token with no error; only a 200 response
      is decoded. */
  function DeviceTokenResult(o: Outcome<DeviceToken>): (r: Result<DeviceToken, Error>)
    ensures o.Err? ==> r == Err(o.error)
    ensures o.Ok? && o.value.status != 200 ==> r == Ok(NoToken)
    ensures o.Ok? && o.value.status == 200 && o.value.body.Some? ==> r == Ok(o.value.body.value)
    ensures o.Ok? && o.value.status == 200 && o.value.body.None? ==> r == Err(DecodeError)
  {
    match o
    case Err(e) => Err(e)
    case Ok(resp) =>
      if resp.status != 200 then Ok(NoToken)
      else
        match resp.body
        case None => Err(DecodeError)
        case Some(v) => Ok(v)
  }

  /** `AuthDeviceCode` never looks at the status code: two responses that differ
      only in status are interpreted alike. */
  lemma DeviceCodeIgnoresStatus(resp: Response<DeviceCode>, status: int)
    ensures DeviceCodeResult(Ok(resp)) == DeviceCodeResult(Ok(resp.(status := status)))
  {
  }

  /** A non-200 token response is never an error and never carries a token,
      whatever its body would have decoded to. */
  lemma PendingTokenIgnoresBody(resp: Response<DeviceToken>, body: Option<DeviceToken>)
    requires resp.status != 200
    ensures DeviceTokenResult(Ok(resp)) == DeviceTokenResult(Ok(resp.(body := body)))
    ensures DeviceTokenResult(Ok(resp)).Ok? && DeviceTokenResult(Ok(resp)).value.accessToken == ""
  {
  }

  // ---------------------------------------------------------------------------
  // Resource operations
  // ---------------------------------------------------------------------------

  /** A history entry, reduced to the fields the client reads. */
  datatype HistoryItem = HistoryItem(
    watchedAt: string,
    kind: string,
    movie: HistoryMovie,
    episode: HistoryEpisode,
    show: HistoryShow)

  datatype HistoryMovie = HistoryMovie(title: string)
  datatype HistoryEpisode = HistoryEpisode(season: int, number: int)
  datatype HistoryShow = HistoryShow(title: string)

  /** Pagination information echoed back in response headers. */
  datatype Pagination = Pagination(page: string, limit: string, pageCount: string, itemCount: string)

  /** The user settings, reduced to the user's slug. */
  datatype UserSettings = UserSettings(userSlug: string)

  datatype Media = Media(title: string, year: int, imdb: string)

  /** A search hit: `kind` says which of the two optional records is meant. */
  datatype SearchResult = SearchResult(kind: string, movie: Option<Media>, show: Option<Media>)

  const HistoryFailed := "failed to get user history"
  const SettingsFailed := "failed to get user settings"
  const SearchFailed := "search failed"

  /** Fixed page size of a search. */
  const SearchLimit := 10

  function HistoryParams(user: string, p: PaginationParams): RequestParams {
    RequestParams(Get, "/users/" + user + "/history", None, true, p, map[])
  }

  function HistoryRequest(c: Client, user: string, p: PaginationParams): Request {
    BuildRequest(c, HistoryParams(user, p), [])
  }

  function SettingsRequest(c: Client): Request {
    BuildRequest(c, RequestParams(Get, "/users/settings", None, true, NoPagination, map[]), [])
  }

  function SearchParams(query: string, searchType: string): RequestParams {
    RequestParams(Get, "/search/" + searchType, None, true, PaginationParams(0, SearchLimit), map["query" := query])
  }

  function SearchRequest(c: Client, query: string, searchType: string): Request {
    BuildRequest(c, SearchParams(query, searchType), ["query"])
  }

  /** The four pagination headers; an absent header reads as "". */
  function PaginationOf(h: Multimap): (p: Pagination)
    ensures p.page == First(h, "X-Pagination-Page")
    ensures p.limit == First(h, "X-Pagination-Limit")
    ensures p.pageCount == First(h, "X-Pagination-Page-Count")
    ensures p.itemCount == First(h, "X-Pagination-Item-Count")
    ensures "X-Pagination-Page" !in h ==> p.page == ""
    ensures "X-Pagination-Limit" !in h ==> p.limit == ""
    ensures "X-Pagination-Page-Count" !in h ==> p.pageCount == ""
    ensures "X-Pagination-Item-Count" !in h ==> p.itemCount == ""
  {
    Pagination(
      First(h, "X-Pagination-Page"),
      First(h, "X-Pagination-Limit"),
      First(h, "X-Pagination-Page-Count"),
      First(h, "X-Pagination-Item-Count"))
  }

  /** `GetUserHistory` after the transport. */
  function HistoryResult(o: Outcome<seq<HistoryItem>>): (r: Result<(seq<HistoryItem>, Pagination), Error>)
    ensures o.Err? ==> r == Err(o.error)
    ensures o.Ok? && o.value.status != 200 ==> r == Err(StatusError(HistoryFailed, o.value.status))
    ensures o.Ok? && o.value.status == 200 && o.value.body.None? ==> r == Err(DecodeError)
    ensures o.Ok? && o.value.status == 200 && o.value.body.Some? ==>
              r == Ok((o.value.body.value, PaginationOf(o.value.header)))
  {
    match o
    case Err(e) => Err(e)
    case Ok(resp) =>
      if resp.status != 200 then Err(StatusError(HistoryFailed, resp.status))
      else
        match resp.body
        case None => Err(DecodeError)
        case Some(items) => Ok((items, PaginationOf(resp.header)))
  }

  /** `GetUserSettings` after the transport. */
  function SettingsResult(o: Outcome<UserSettings>): (r: Result<UserSettings, Error>)
    ensures o.Err? ==> r == Err(o.error)
    ensures o.Ok? && o.value.status != 200 ==> r == Err(StatusError(SettingsFailed, o.value.status))
    ensures o.Ok? && o.value.status == 200 && o.value.body.None? ==> r == Err(DecodeError)
    ensures o.Ok? && o.value.status == 200 && o.value.body.Some? ==> r == Ok(o.value.body.value)
  {
    match o
    case Err(e) => Err(e)
    case Ok(resp) =>
      if resp.status != 200 then Err(StatusError(SettingsFailed, resp.status))
      else
        match resp.body
        case None => Err(DecodeError)
        case Some(s) => Ok(s)
  }

  /** `Search` after the transport. */
  function SearchResultOf(o: Outcome<seq<SearchResult>>): (r: Result<seq<SearchResult>, Error>)
    ensures o.Err? ==> r == Err(o.error)
    ensures o.Ok? && o.value.status != 200 ==> r == Err(StatusError(SearchFailed, o.value.status))
    ensures o.Ok? && o.value.status == 200 && o.value.body.None? ==> r == Err(DecodeError)
    ensures o.Ok? && o.value.status == 200 && o.value.body.Some? ==> r == Ok(o.value.body.value)
  {
    match o
    case Err(e) => Err(e)
    case Ok(resp) =>
      if resp.status != 200 then Err(StatusError(SearchFailed, resp.status))
      else
        match resp.body
        case None => Err(DecodeError)
        case Some(results) => Ok(results)
  }

  /** The three resource operations never decode a non-200 body: the result
      is the same status error whatever the body and headers are. */
  lemma NonOkNeverDecoded(
    h: Response<seq<HistoryItem>>, s: Response<UserSettings>, q: Response<seq<SearchResult>>,
    hb: Option<seq<HistoryItem>>, sb: Option<UserSettings>, qb: Option<seq<SearchResult>>, hdr: Multimap)
    requires h.status != 200 && s.status != 200 && q.status != 200
    ensures HistoryResult(Ok(h)) == HistoryResult(Ok(h.(body := hb, header := hdr))) == Err(StatusError(HistoryFailed, h.status))
    ensures SettingsResult(Ok(s)) == SettingsResult(Ok(s.(body := sb, header := hdr))) == Err(StatusError(SettingsFailed, s.status))
    ensures SearchResultOf(Ok(q)) == SearchResultOf(Ok(q.(body := qb, header := hdr))) == Err(StatusError(SearchFailed, q.status))
  {
  }

  function GetUserHistory(c: Client, user: string, p: PaginationParams,
                          transport: Request -> Outcome<seq<HistoryItem>>): (r: Result<(seq<HistoryItem>, Pagination), Error>)
    ensures var o := transport(HistoryRequest(c, user, p));
      && (r.Ok? <==> o.Ok? && o.value.status == 200 && o.value.body.Some?)
      && (r.Ok? ==> r.value.0 == o.value.body.value && r.value.1 == PaginationOf(o.value.header))
  {
    HistoryResult(transport(HistoryRequest(c, user, p)))
  }

  function GetUserSettings(c: Client, transport: Request -> Outcome<UserSettings>): (r: Result<UserSettings, Error>)
    ensures var o := transport(SettingsRequest(c));
      && (r.Ok? <==> o.Ok? && o.value.status == 200 && o.value.body.Some?)
      && (r.Ok? ==> r.value == o.value.body.value)
  {
    SettingsResult(transport(SettingsRequest(c)))
  }

  function Search(c: Client, query: string, searchType: string,
                  transport: Request -> Outcome<seq<SearchResult>>): (r: Result<seq<SearchResult>, Error>)
    ensures var o := transport(SearchRequest(c, query, searchType));
      && (r.Ok? <==> o.Ok? && o.value.status == 200 && o.value.body.Some?)
      && (r.Ok? ==> r.value == o.value.body.value)
  {
    SearchResultOf(transport(SearchRequest(c, query, searchType)))
  }

  /** The history request is an authenticated GET of the user's history path
      whose query holds exactly the caller's pagination. */
  lemma HistoryRequestShape(c: Client, user: string, p: PaginationParams)
    ensures var r := HistoryRequest(c, user, p);
      && r.verb == Get && r.url == c.endpoint + "/users/" + user + "/history" && r.body == None
      && Values(r.header, "trakt-api-key") == [c.credentials.clientId]
      && Values(r.header, "Authorization") == ["Bearer " + c.credentials.accessToken]
      && r.query == PaginationQuery(p)
  {
    var r := HistoryRequest(c, user, p);
    SameValuesEqual(r.query, PaginationQuery(p));
  }

  /** The settings request is an authenticated GET with an empty query. */
  lemma SettingsRequestShape(c: Client)
    ensures var r := SettingsRequest(c);
      && r.verb == Get && r.url == c.endpoint + "/users/settings" && r.body == None
      && Values(r.header, "trakt-api-key") == [c.credentials.clientId]
      && Values(r.header, "Authorization") == ["Bearer " + c.credentials.accessToken]
      && r.query == map[]
  {
  }

  /** The search request goes to `/search/<type>` with the type verbatim, and
      its query is exactly `query=<text>` and `limit=10`, with no `page`. */
  lemma SearchRequestShape(c: Client, query: string, searchType: string)
    ensures var r := SearchRequest(c, query, searchType);
      && r.verb == Get && r.url == c.endpoint + "/search/" + searchType && r.body == None
      && Values(r.header, "Authorization") == ["Bearer " + c.credentials.accessToken]
      && r.query.Keys == {"query", "limit"}
      && Values(r.query, "query") == [query]
      && Values(r.query, "limit") == ["10"]
  {
    PaginationQueryEntries(SearchParams(query, searchType).pagination);
    DecimalTen();
  }
}
