# trakt-cli, modelled in Dafny

This project models the small kernel of rules inside trakt-cli, a command-line client for the trakt.tv API. The HTTP, JSON, YAML, file-system and terminal work around that kernel is abstracted away. What is modelled:

- **Request assembly** (`doRequest`). A request is built as a value: a header multimap, a query multimap and an optional body. It always carries `Accept: application/json` and `trakt-api-version: 2`. It carries `Content-Type: application/json` exactly when there is a body. `page` and `limit` are added only when they are nonzero. Extra query pairs are appended with `Add`. The API key and bearer token are added exactly when `auth` is set.
- **Response interpretation.** A response is a status code, a header multimap and a body already run through the JSON decoder (`Option<T>`; `None` means a decode failure).
  - `AuthDeviceCode` decodes whatever the status.
  - `AuthDeviceToken` treats any non-200 status as "not yet authorised": it returns the zero token and no error.
  - `GetUserHistory`, `GetUserSettings` and `Search` turn any non-200 status into an error without decoding. History also copies the four `X-Pagination-*` headers, and an absent header reads as `""`.
- **The `auth` command.** It requests a device code, then polls once per entry of a sequence of poll outcomes. It stops at the first error or the first non-empty token, and writes the credentials at most once. Its behaviour is recorded as a trace of actions: requests sent, sleeps, messages and the credentials write.
- **The `history` and `search` commands.** These select rows by the `type` discriminant; search also requires the matching record to be present. History labels episodes `S%02dE%02d` and prints a pagination footer. Search joins its arguments with single spaces, requires at least one argument, and prints a message instead of a table when there are no results.

Modules, one per file:
- `Wrappers`: `Option` and `Result`.
- `Text`: Go's `%d` and `%02d`, and `strings.Join(args, " ")`. Each has an inverse; for the join, the inverse holds when no word contains a space.
- `Multimaps`: `http.Header` and `url.Values`.
- `Api`: `api/api.go`.
- `Auth`: `cmd/auth.go`.
- `History`: `cmd/history.go`.
- `Search`: `cmd/search.go`.

Parameters stand in for the outside world:
- The sending of a request is a transport. For the history and search commands it is a function from `Request` to a response or transport error. For the auth loop, whose server answers change over time, it is the outcome of the device-code request plus a sequence of poll outcomes.
- Go visits the extra query map in an unspecified order. `BuildRequest` takes that order as a parameter, and `BuildRequestOrderIrrelevant` proves the request does not depend on it.
- Reading the configuration file is an `Option<Credentials>`. Saving is described by `SaveEnv`: whether YAML encoding worked, the home directory if it was found, and whether the write worked.

The model follows the code where the code may surprise a reader:
- Nothing checks for an empty access token. Authenticated calls are sent with `Bearer ` followed by whatever token the file held.
- An extra query key that collides with `page` or `limit` does not replace the pagination value: both values are kept, pagination first (`ExtraQueryAppended`).
- `AuthDeviceCode` never looks at the status code (`DeviceCodeIgnoresStatus`).
- `auth` also needs a readable configuration file before it does anything (`AuthNeedsConfig`).
- `auth` writes `~/.trakt.yaml`, but the client reads `trakt-cli/config.yaml` from the XDG configuration directories. No save/load round trip is claimed.

## Model

| member | source | states |
|---|---|---|
| Api.PaginationQuery | api/api.go:100-106 | the pagination query has no key but `page` and `limit`; `page` is present iff Page != 0 and `limit` iff Limit != 0 |
| Api.GetUserHistory | api/api.go:239-269 | succeeds iff the transport answers 200 with a decodable body; then the entries are that body and the pagination is the first value of each of the four `X-Pagination-*` headers, "" when absent |
| Api.GetUserSettings | api/api.go:318-340 | succeeds iff the transport answers 200 with a decodable body, and then returns that body |
| Api.Search | api/api.go:369-396 | succeeds iff the transport answers 200 with a decodable body, and then returns that body |
| Api.NewClient | api/api.go:33-59 | a client exists exactly when the configuration was read; it talks to `https://api.trakt.tv` with the credentials read |
| Api.BuildHeader | api/api.go:88-115 | the header keys are exactly Accept, trakt-api-version, Content-Type when there is a body, and the API key and Authorization when `auth` is set; each holds exactly its one value |
| Api.BuildRequest | api/api.go:82-115 | the request keeps method, endpoint+path and body; under every query key it holds that key's pagination value(s) followed by the extra pair's value, for any iteration order of the extra map |
| Api.BuildRequestOrderIrrelevant | api/api.go:107-110 | two iteration orders of the extra query map give the same request |
| Api.RequestHeaders | api/api.go:88-115 | Accept and trakt-api-version are always set; Content-Type exactly when a body is present; trakt-api-key = client id and Authorization = "Bearer "+token exactly when `auth` is set |
| Api.PaginationQueryEntries | api/api.go:100-106 | `page` present iff Page != 0 and `limit` present iff Limit != 0, each with its decimal rendering and no other key |
| Api.PaginationParamsInQuery | api/api.go:100-106 | in the built request, `page` is present iff Page != 0 and its one value reads back as Page (likewise `limit`), when the extra map does not reuse the key |
| Api.ExtraQueryAppended | api/api.go:107-109 | every extra pair is present as the last value of its key, after any pagination value: appended, not replaced |
| Api.DeviceRequestsUnauthenticated | api/api.go:125-168 | both device-flow requests are JSON POSTs to their paths, with no API key, no Authorization header and no query |
| Api.DeviceCodeResult | api/api.go:133-143 | a transport error is returned as is; otherwise the decoded body, or a decode error |
| Api.DeviceCodeIgnoresStatus | api/api.go:133-143 | changing only the status of the device-code response never changes the result |
| Api.DeviceTokenResult | api/api.go:169-181 | a non-200 status yields the zero token and no error; a 200 yields the decoded body or a decode error |
| Api.PendingTokenIgnoresBody | api/api.go:174-181 | a non-200 token response carries an empty token whatever its body would decode to |
| Api.PaginationOf | api/api.go:262-267 | the four pagination fields are the first values of the four X-Pagination headers, "" when absent |
| Api.HistoryResult | api/api.go:247-269 | non-200 gives the "failed to get user history" status error; 200 gives the decoded entries with the header pagination, or a decode error |
| Api.SettingsResult | api/api.go:325-340 | non-200 gives the "failed to get user settings" status error; 200 gives the decoded settings or a decode error |
| Api.SearchResultOf | api/api.go:381-396 | non-200 gives the "search failed" status error; 200 gives the decoded results or a decode error |
| Api.NonOkNeverDecoded | api/api.go:252-254 | for history, settings and search, a non-200 result is the status error whatever the body and headers |
| Api.HistoryRequestShape | api/api.go:239-246 | history is an authenticated GET of /users/<user>/history whose query is exactly the pagination entries |
| Api.SettingsRequestShape | api/api.go:318-324 | settings is an authenticated GET of /users/settings with an empty query |
| Api.SearchRequestShape | api/api.go:369-380 | search is an authenticated GET of /search/<type> whose query keys are exactly `query` (the text) and `limit` (10), so no `page` |
| Multimaps.Add | api/api.go:107-109 | adding appends the value to its key's list and leaves every other key unchanged |
| Multimaps.AddEach | api/api.go:107-109 | the loop over the extra map keeps every existing key and adds no key outside the map |
| Multimaps.AddEachValues | api/api.go:107-109 | after the loop over a map visited in any order, each key holds its old values plus the pair's value, and the keys are the old ones plus the map's |
| Text.Decimal | api/api.go:102 | `%d` is a non-empty numeral that starts with a minus sign iff the number is negative, with no leading zero on a nonzero number |
| Text.DecimalRoundTrip | api/api.go:102 | the `%d` rendering reads back as the number it rendered |
| Text.Pad2 | cmd/history.go:69 | `%02d` output has at least two characters and reads back as the number; it is the `%d` rendering when that is already two characters long, and otherwise a single `0` followed by it |
| Text.JoinSpaces | cmd/search.go:25 | joining no words gives "" and one word gives that word, spaces and all; the result starts with the first word, followed by a single space when there is a second word |
| Text.JoinSpacesAppend | cmd/search.go:25 | joining one more word appends a single space and that word, for any words, so every argument list has exactly one join |
| Text.JoinSplitRoundTrip | cmd/search.go:25 | joining space-free words with single spaces and splitting again gives the words back |
| Auth.Persist | cmd/auth.go:58-83 | the save step ends authorised with the flags and the token iff the home directory is found, and otherwise stops with the home-directory failure |
| Auth.PollLoop | cmd/auth.go:46-85 | a non-empty outcome sequence starts with a poll of the given request; the loop is still polling iff every outcome was pending |
| Auth.AuthCommand | cmd/auth.go:29-87 | the command does nothing iff the configuration is unreadable, and is authorised only after the configuration was read and the device code granted |
| Auth.LeadingPending | cmd/auth.go:56-57 | counts the leading polls that yielded no error and an empty token; the next poll, if any, is not pending |
| Auth.PollLoopIsReference | cmd/auth.go:46-85 | the loop equals pending poll-and-sleep rounds, then the deciding poll, then a fatal stop on error or the save step on a token; or it is still polling when the outcomes run out |
| Auth.PersistWritesOnce | cmd/auth.go:58-83 | saving writes once iff the home directory is known, to `<home>/.trakt.yaml`, holding the two flags and the token (nothing when encoding failed); only messages follow; the encoding-failure message appears iff encoding failed, the write-failure message iff the write failed, and the success message iff the home directory is known, as the last action |
| Auth.LoopOutcome | cmd/auth.go:46-85 | every poll sends the same request; at most one write; an error stops the loop with no write; authorised iff the first non-pending poll gave a token and the home directory is known, with the flags and that non-empty token, and then every write goes to `<home>/.trakt.yaml` holding exactly those credentials (nothing when encoding failed) |
| Auth.AuthNeedsConfig | api/api.go:35-47 | without a readable configuration the command does nothing and stops fatally |
| Auth.DeviceCodeFailureAborts | cmd/auth.go:32-38 | a failed device-code request stops the flow after that one request, before any poll |
| Auth.AuthCommandUnfold | cmd/auth.go:32-46 | after the device code, the command shows the verification URL and user code and then runs the loop |
| Auth.PollsSendDeviceCode | cmd/auth.go:47-51 | every poll sends the initial response's device code with the client-id and client-secret flags |
| Auth.AuthOutcome | cmd/auth.go:32-85 | once the configuration is read and the device code granted (`AuthNeedsConfig` and `DeviceCodeFailureAborts` cover the other paths): at most one credentials write, which happens iff the flow is authorised; the write goes to `<home>/.trakt.yaml` and holds the two flags and the first non-empty token (nothing when encoding failed); no write on the error path; only messages follow the write |
| History.EpisodeLabel | cmd/history.go:69 | the `SxxEyy` label starts with `S` and has at least six characters |
| History.EpisodeLabelRoundTrip | cmd/history.go:69 | the `SxxEyy` label parses back to its season and episode numbers |
| History.RowOf | cmd/history.go:60-75 | an entry gives a row iff its type is movie or episode; the row carries its watch time, is a movie row iff the entry is a movie, and then shows the movie title |
| History.HistoryRows | cmd/history.go:59-76 | there are never more rows than entries, and every row is a movie row or a show row |
| History.ItemRows | cmd/history.go:60-75 | a movie entry gives exactly ("Movie 🎬", movie title, watch time); an episode entry gives one show row titled `<show> (S<season %02d>E<number %02d>)`, whose label parses back to its season and episode; any other type gives no row |
| History.HistoryRowsAppend | cmd/history.go:59-76 | the rows of a concatenation are the rows of each part, in response order |
| History.HistoryRowsCount | cmd/history.go:59-76 | the number of rows equals the number of movie and episode entries |
| History.HistoryUsesSlugAndFlags | cmd/history.go:43-46 | the history transport affects the command only through the request for the settings' slug with the page and limit flags |
| History.DefaultFlagsQuery | cmd/history.go:92-93 | with the default flags the history query is exactly page=1 and limit=10 |
| History.HistoryFailures | cmd/history.go:29-50 | a settings failure is fatal; a history failure is reported without rendering, and only then |
| History.HistoryCommand | cmd/history.go:22-86 | an unreadable configuration is fatal; a table is shown only when the settings were fetched and the history request succeeded, with no more rows than entries |
| History.Footer | cmd/history.go:84 | the footer starts with `Page ` followed by the page header, and ends with ` items in total` |
| History.HistoryTable | cmd/history.go:52-84 | on success the table holds the entries' rows and the footer shows the page, page-count and item-count headers in that order |
| Search.RowOf | cmd/search.go:58-79 | a hit gives a row iff it is a movie hit with a movie record or a show hit with a show record; the row is the label, title, year and IMDb id of that record |
| Search.Rows | cmd/search.go:58-79 | never more rows than hits, each row a movie or TV show row |
| Search.ResultRows | cmd/search.go:58-79 | the loop yields the rows of the hits in result order, never more rows than hits |
| Search.RowsAppend | cmd/search.go:58-79 | the rows of a concatenation are the rows of each part, in order |
| Search.RowsAreShownHits | cmd/search.go:58-79 | no row appears iff no hit is shown; every shown hit's row appears |
| Search.SearchCommand | cmd/search.go:21-47 | no arguments is a usage error; a search error is fatal; an empty result prints "No results found." and no table; otherwise the table of rows |
| Search.SearchQuery | cmd/search.go:25-36 | the search is sent for the type verbatim, with one `query` value that splits back into the arguments when no argument contains a space |
| Search.DefaultTypeSearch | cmd/search.go:88 | with the default type the search path is /search/movie,show |

## Left out

- Transport: the HTTP client, its 120-second timeout and the 5-second idle-connection timeout are not modelled. A request's fate is a given outcome, and a failing `http.NewRequest` counts as a transport error.
- JSON and YAML encoding and decoding are opaque. A response body is already `Option<T>`. The YAML encoding of the saved credentials is either the credentials or nothing.
- Request body encoding failure (api/api.go:93-96) is not modelled: the bodies are plain string structs.
- Locating and reading the configuration file through XDG, and the file write itself, are outside the model. They appear as `Option<Credentials>` and `SaveEnv`.
- `time.Sleep` is a `Sleep(seconds)` action that does nothing. The loop never stops on its own; a finite sequence of poll outcomes that runs out leaves the status `Polling`.
- The spinner, table rendering, bold and colour styling, and `timediff` relative times are not modelled. The watched cell is the entry's watch time as given, and the label is plain text.
- `SearchResult.Score` is never read, so it is not modelled. The large `UserSettings` and ID records are reduced to the fields the commands read.
- Cobra flag parsing and command registration are not modelled; flags are parameters. `GetInt` and `GetString` cannot fail for the registered flags, so those error branches are not modelled.
- `log.Fatal`, `log.Fatalf` and `logrus.Fatal` become a `Fatal` status or output whose message is a paraphrase, without the wrapped error. The configuration message leaves out the quoted file path, because the path is not modelled. A failed `os.ReadFile` (api/api.go:41) and a failed `os.UserHomeDir` (cmd/auth.go:73) print only the Go error; the model folds the first into the configuration message and names the second "Failed to find home directory".
- The encoding order of `q.Encode()` is not modelled; the query is kept as a multimap.
- URL parsing is not modelled, so the query always starts empty. In Go, a `?` inside a user-supplied path segment would seed the query.
- Api.BuildHeader: header keys are stored as written. Go stores them in canonical MIME form (`Trakt-Api-Version`), and lookups in the model are exact-match.
- Api.HistoryResult: a status error carries the numeric status code rather than Go's status-line text.
- Api.SettingsResult: a status error carries the numeric status code rather than Go's status-line text (api/api.go:331).
- Api.SearchResultOf: a status error carries the numeric status code rather than Go's status-line text (api/api.go:387).
- Text.Decimal: integers are unbounded; Go's `int` is 64-bit. No value the client renders comes near that bound.
