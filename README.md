# Smarterer leaderboard: a Dafny model

This project models the core of a small web application. Users authorize it with the Smarterer
assessment service through OAuth. It stores each user's latest badge (test slug, raw score,
badge image) and shows a leaderboard sorted by score. It has two parts.

- `smarterer_api.dfy`, module `SmartererApi`: the thin client for the Smarterer HTTP API. A client
  holds four fields that never change after creation, so it is a datatype and every operation is a
  function. The model covers the query-parameter filter of `_fetch` (only the fields that are set),
  the status check (any status other than 200 raises `SmartererApiHttpException`), the resource URL
  of `_req`, the `badges` resource path, `authorize_url` and `get_access_token`. The HTTP server is
  a parameter `Server = Request -> Response`, where a response is a status code and its content.
- `leaderboard.dfy`, module `Leaderboard`: the application's logic without Flask and sqlite.
  - The two tables are `map` fields of a `Store` class, both keyed by username:
    `userTokens` holds username → access token, and `userBadges` holds username → (slug, score,
    badge URL).
  - `AuthComplete` (the OAuth callback) and `Update` (posting the latest score) write the tables
    the way the source does. Each tries an INSERT, which fails with IntegrityError when the
    username already has a row, and then falls back to an UPDATE. `Update` does this in a loop
    over the fetched badges.
  - The profile page and the leaderboard are functions. The leaderboard is the rows of the
    configured test, sorted stably by score, highest first.
  - The session's username, the token exchange and the badge fetch are parameters.
- `wrappers.dfy`, module `Wrappers`: `Option` and `Result`.

Username is assumed to be the unique key of both tables. No schema appears in the code, but
`UPDATE ... WHERE username=?` (leaderboard.py:163, 199) implies it.

The profile page shows the *first* badge of the fetched list (leaderboard.py:116-118). The update
loop leaves the *last* badge of the list in the table (leaderboard.py:191-203).
`Leaderboard.ShownBadgeIsStoredIff` says exactly when the two agree. Storing the first badge
would match what the profile shows, but the code stores the last, and so does `Update`.

## Model

| member | source | states |
|---|---|---|
| `SmartererApi.DefaultClient` | smarterer/api.py:18-26 | a client built with no arguments has no token, no client id and no secret, and verifies SSL |
| `SmartererApi.FormatValue` | smarterer/api.py:69-71 | string formatting shows a present value as itself and an absent one as "None" |
| `SmartererApi.PresentParams` | smarterer/api.py:34-37 | the dictionary's keys are exactly those of the pairs whose value is not None, and each key maps to the value of its last such pair |
| `SmartererApi.FetchParams` | smarterer/api.py:33-37 | `client_id` is a parameter exactly when the client id is set, and `access_token` exactly when the token is; each maps to its field's value, and no other key appears |
| `SmartererApi.Fetch` | smarterer/api.py:28-49 | the GET goes to the URL with the client's parameters and SSL flag; the call succeeds exactly when the status is 200 and then returns the content unchanged; otherwise it raises the HTTP error with that status and content |
| `SmartererApi.ResourceUrl` | smarterer/api.py:58-59 | the request URL is the API base URL followed by the resource name |
| `SmartererApi.ResourceUrlInjective` | smarterer/api.py:59 | distinct resource names give distinct URLs |
| `SmartererApi.Req` | smarterer/api.py:51-60 | a resource request is the fetch of the resource's URL under the API base |
| `SmartererApi.BadgesResource` | smarterer/api.py:62-65 | with an absent or empty username the resource is "badges"; otherwise it is "badges", a slash and the username |
| `SmartererApi.BadgesResourceInjective` | smarterer/api.py:62-65 | only an absent or empty username asks for "badges", and a non-empty username can be read back from its resource |
| `SmartererApi.Badges` | smarterer/api.py:62-66 | `badges` fetches the URL of its resource under the API base |
| `SmartererApi.AuthorizeUrl` | smarterer/api.py:68-71 | the URL is the OAuth base, "/authorize?client_id=" and the formatted client id; the callback plays no part |
| `SmartererApi.AuthorizeUrlDeterminedByClientId` | smarterer/api.py:68-71 | two authorization URLs are equal exactly when the formatted client ids are, whatever the callbacks |
| `SmartererApi.TokenRequest` | smarterer/api.py:73-79 | the token request goes to the OAuth base plus "/access_token" with the client's SSL flag; `grant_type` is "authorization_code", `code` is the code, and `client_id` and `client_secret` appear exactly when set; no other key appears |
| `SmartererApi.GetAccessToken` | smarterer/api.py:73-85 | a non-200 status raises the HTTP error with status and content; a 200 answer yields the `access_token` field of the body, or a body error when the field cannot be read |
| `Leaderboard.RecordOf` | leaderboard.py:195-197 | the row an update writes for a badge holds the badge's quiz slug, raw score and image |
| `Leaderboard.EntryOf` | leaderboard.py:225-228 | a row read back carries its username, slug, raw score and badge image unchanged |
| `Leaderboard.LoggedIn` | leaderboard.py:150-152 | a session username counts as absent exactly when it is missing or the empty string, as Python's `not username` tests |
| `Leaderboard.CallbackClient` | leaderboard.py:153-155 | the client of the OAuth callback carries the configured client id and app secret, no token, and does not verify SSL |
| `Leaderboard.CallbackExchange` | leaderboard.py:153-156 | the exchange `auth_complete` performs, `get_access_token` of the callback client: the returned token exactly when the service answers 200 with a token, the HTTP error on another status, and a malformed-body error otherwise |
| `Leaderboard.CallbackExchangeRequest` | leaderboard.py:153-156 | the callback's token request goes to the token endpoint without SSL verification and carries exactly the configured id and secret, the code and the grant type; the exchange succeeds exactly when the service answers 200 with a token |
| `Leaderboard.AuthorizingClient` | leaderboard.py:132 | the client behind the authorization link has the configured client id and otherwise the constructor's defaults: no token, no secret, SSL verified |
| `Leaderboard.Lookup` | leaderboard.py:96-97 | the token lookup finds a value exactly when the username has a row, and then it is that row's token |
| `Leaderboard.TokensAfterAuth` | leaderboard.py:150-164 | with a logged-in user and a token, that user's entry is the token and every other entry is unchanged; with no (or an empty) session user, or a failed exchange, the table is unchanged |
| `Leaderboard.TokensAfterAuthIdempotent` | leaderboard.py:160-164 | applying the callback's write twice with the same user and token gives the table of one application |
| `Leaderboard.Upserts` | leaderboard.py:191-203 | the update loop, one insert-else-update of the user's row per badge in list order (its meaning is `UpsertsLastWins`) |
| `Leaderboard.UpsertsLastWins` | leaderboard.py:191-203 | an empty badge list leaves the table unchanged; otherwise the user has exactly one row, that of the last badge, and every other row is untouched |
| `Leaderboard.Store.InsertToken` | leaderboard.py:161-162 | the INSERT fails with IntegrityError exactly when the username already has a token; otherwise it adds the row; the badge table is untouched |
| `Leaderboard.Store.UpdateToken` | leaderboard.py:163 | the UPDATE replaces the token of an existing username and does nothing for an absent one |
| `Leaderboard.Store.InsertBadge` | leaderboard.py:193-197 | the INSERT fails with IntegrityError exactly when the username already has a badge row; otherwise it adds the row |
| `Leaderboard.Store.UpdateBadge` | leaderboard.py:198-203 | the UPDATE replaces slug, score and badge URL of an existing username's row and does nothing for an absent one |
| `Leaderboard.Store.AuthComplete` | leaderboard.py:138-166 | with no (or an empty) session user: redirect to login, nothing written; a failed exchange raises and writes nothing; otherwise the token table becomes `TokensAfterAuth` of the old one and the page redirects to the index; the badge table never changes |
| `Leaderboard.Store.Update` | leaderboard.py:169-207 | no session user raises; an empty one redirects to the index without writing; otherwise the badge list is fetched with the stored token (or none); a failed fetch raises and writes nothing; a fetched list is upserted badge by badge, so an empty list leaves the table as it was and a non-empty one leaves the user with the last badge's row; the token table never changes |
| `Leaderboard.AuthCompleteTwice` | leaderboard.py:150-166 | when a second callback for the same user fails its exchange or obtains the same token as the first, the token table ends as after the first alone and the badge table is untouched; a failed second exchange answers with its error, an identical one answers like the first |
| `Leaderboard.FirstBadge` | leaderboard.py:116-118 | the profile's current result is absent exactly when the badge list is empty, and otherwise is its first badge |
| `Leaderboard.ShownBadgeIsStoredIff` | leaderboard.py:191-203 | for a non-empty list, the row an update stores equals the badge the profile shows exactly when the first and the last badge carry the same slug, score and image |
| `Leaderboard.StoredBadge` | leaderboard.py:78-81 | the stored leaderboard badge exists exactly when the user has a row for the configured test, and then it is that row |
| `Leaderboard.Profile` | leaderboard.py:53-124 | the page is public exactly when the session user is not the profile's owner; an owner without a stored token gets the authorization page with the client's authorize URL; an owner with one sees the first fetched badge beside the stored row, or the fetch's error |
| `Leaderboard.ProfileWithoutTokenFetchesNothing` | leaderboard.py:101-104 | for an owner without a stored token, the page does not depend on the badge fetch |
| `Leaderboard.WithSlug` | leaderboard.py:224 | the selected rows all carry the configured slug |
| `Leaderboard.WithSlugCounts` | leaderboard.py:224 | each row of the configured test is selected as often as it occurs, and no other row is selected |
| `Leaderboard.WithScoreWithSlug` | leaderboard.py:224-230 | the rows of one score among the selected rows are the selected rows among those of that score, in the same order |
| `Leaderboard.InsertByScore` | leaderboard.py:230 | one insertion step of the sort adds exactly one row at the front or behind the first row |
| `Leaderboard.InsertByScorePermutes` | leaderboard.py:230 | an insertion step adds exactly the inserted row to the multiset of rows |
| `Leaderboard.InsertByScoreSorted` | leaderboard.py:230 | inserting into rows sorted by non-increasing score keeps them sorted |
| `Leaderboard.InsertByScoreTies` | leaderboard.py:230 | the inserted row goes ahead of all rows of its score and no other score's rows change order |
| `Leaderboard.SortByScore` | leaderboard.py:230 | `sorted(..., key=raw_score, reverse=True)` gives a permutation of its input, ordered by non-increasing score, in which rows of equal score keep their input order |
| `Leaderboard.LeaderboardBadges` | leaderboard.py:221-230 | the leaderboard is a permutation of exactly the rows with the configured slug, by non-increasing score, and its rows of each score are those of the store with that score and slug, in store order |
| `Leaderboard.LeaderboardOfStore` | leaderboard.py:224-230 | over any listing of the badge table, each user with a row for the configured test appears exactly once with that row, no other row appears, and no username appears twice |

## Left out

- Flask routing, the session object, `redirect`, `url_for`, `render_template` and the secret key are web glue. The session username is an optional parameter. Pages are datatype values naming the redirect or the template's data.
- `escape` of the username (leaderboard.py:72, 176) is treated as the identity. The model does not capture HTML escaping of names with special characters. In the code this matters: `auth_complete` stores the token under the raw session name (leaderboard.py:150, 161), while `profile` and `update` look it up under the escaped name (leaderboard.py:96, 182). A user whose name has HTML special characters, such as `a&b`, therefore never finds their token. The model stores and looks up under the same name.
- The `index`, `login` and `logout` handlers are not modelled. The `please_authorize` helper (leaderboard.py:127-136) is modelled in full by `Leaderboard.Profile`'s `PleaseAuthorize(username, oauthUrl)` answer: its client is `Leaderboard.AuthorizingClient`, its URL is `SmartererApi.AuthorizeUrl` of that client, and both template values are carried.
- sqlite connections, cursors, commit and close are left out. The tables are in-memory maps keyed by username. The leaderboard's query is `SELECT * FROM user_badges WHERE test_url_slug=?` (leaderboard.py:224), and its row order is unspecified. The model instead takes a listing of the whole table, in any order, as its input sequence (`Leaderboard.Lists` relates the sequence to the table), and filters it with `Leaderboard.WithSlug`. No order is lost: any order of the filtered rows is `WithSlug` of some listing, and `Leaderboard.LeaderboardOfStore` holds for every listing.
- Actual HTTP calls through `requests` and SSL verification are left out. The server is a function parameter. `requests` drops parameters whose value is None, and `SmartererApi.TokenRequest` models that library behaviour with the same filter as `_fetch`.
- SmartererApi.Fetch: the server always answers, so connection errors and timeouts that `requests.get` raises (smarterer/api.py:40, 75) are not modelled; every failure is a status code.
- SmartererApi.GetAccessToken: `code` is a string. The default `code=None` (smarterer/api.py:73), which `requests` would leave out of the query, is not modelled; the only caller passes a string (leaderboard.py:156).
- SmartererApi.Req: `json.loads` of the content is not modelled, so the content is returned undecoded. In `Leaderboard`, the decoded badge list is what the `BadgeFetch` parameter returns.
- SmartererApi.Badges: returns the undecoded content, for the same reason as `Req`.
- SmartererApi.GetAccessToken: parsing the body and taking `str` of its `access_token` field is the parameter `accessTokenOf`. A body that fails to parse, or a missing field (ValueError or KeyError in the source), becomes `MalformedBody`.
- SmartererApi.Fetch: also, the exception's message text (the `%s`/`%r` formatting of status and content) is not built. The error carries the status and the content.
- The handlers call `badges((slug,))`, which passes a tuple where a username string is expected (leaderboard.py:114, 190). They also pass a fetched database row as the access token (leaderboard.py:97, 183). As written, `"/".join(("badges", (slug,)))` raises TypeError (smarterer/api.py:65). So every owner profile view with a stored token fails before any fetch (leaderboard.py:114), and so does every `update` with a non-empty username (leaderboard.py:190), whose badge loop (leaderboard.py:191-203) therefore never runs. The model does not reproduce either defect: `BadgeFetch` stands for the fetch the call was meant to make. `SmartererApi.Badges` takes an optional username string, and the handlers' badge fetch is the abstract `BadgeFetch`, which receives the stored token or None.
- Raw scores are Dafny `real` values. The model does not capture floating-point rounding or NaN. Scores are stored exactly as received.
- Leaderboard.Store.Update: a badge object lacking `quiz.url_slug`, `badge.raw_score` or `badge.image` would raise KeyError in the source. The model's `Badge` always has these fields.
- util.py is not modelled: it imports `db` from leaderboard.py, which defines none, so it cannot run as written. `Leaderboard.Store.constructor` is the assumed initial state, an empty database before the first request; no line of the code creates it, so it has no row above.
- Leaderboard.LeaderboardBadges: the docstring of `leaderboard` (leaderboard.py:215-216) promises to save or update the logged-in user's score before listing. The body (leaderboard.py:221-231) never writes; it only reads and sorts. The model follows the body and is read-only.
- Concurrency: each handler is one atomic step on the store. Requests that interleave, with their separate sqlite connections and commits, are not modelled.
- A fixed-point score codec, a batch sync over all users and typed sync results do not appear in this code and are not modelled.
