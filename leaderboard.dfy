/**
 * The leaderboard web application without its web framework and database
 * driver: the two username-keyed tables, the OAuth callback and the score
 * update that write them with insert-else-update, and the read-only pages
 * (the profile page and the sorted leaderboard).
 *
 * The session's username is a parameter (absent or a string). Calls to the
 * Smarterer service are parameters too: exchanging a code for a token, and
 * fetching the badge list with a stored token (or without one).
 */
module Leaderboard {
  import opened Wrappers
  import SmartererApi

  /** The deployment's configuration: the one test tracked, and the OAuth client credentials. */
  datatype Config = Config(testUrlSlug: string, clientId: string, appSecret: string)

  /** One badge of the remote list: `quiz.url_slug`, `badge.raw_score`, `badge.image`. */
  datatype Badge = Badge(urlSlug: string, rawScore: real, image: string)

  /** A row of `user_badges` without its key, the username. */
  datatype BadgeRecord = BadgeRecord(testUrlSlug: string, score: real, badgeUrl: string)

  /** A row of `user_badges` as read back: username, test slug, raw score, badge image. */
  datatype Entry = Entry(username: string, testUrlSlug: string, rawScore: real, badgeImage: string)

  /** What a handler raises instead of answering: a missing session key, or an API error. */
  datatype Failure = MissingSessionUser | Remote(error: SmartererApi.ApiError)

  /** The answer of a handler that writes. */
  datatype Page = RedirectLogin | RedirectIndex | RedirectLeaderboard | ServerError(failure: Failure)

  /** The answer of the profile page. */
  datatype ProfileView =
    | PublicProfile(username: string, leaderboardBadge: Option<Entry>)
    | PleaseAuthorize(username: string, oauthUrl: string)
    | OwnerProfile(username: string, smartererResult: Option<Badge>, leaderboardBadge: Option<Entry>)
    | ProfileError(error: SmartererApi.ApiError)

  /** Exchanging an authorization code for an access token. */
  type TokenExchange = string -> Result<string, SmartererApi.ApiError>

  /** Fetching the parsed badge list for the configured test, with the stored token if there is one. */
  type BadgeFetch = Option<string> -> Result<seq<Badge>, SmartererApi.ApiError>

  /** The values an update writes for a badge: its quiz slug, raw score and image. */
  function RecordOf(b: Badge): (r: BadgeRecord)
    ensures r.testUrlSlug == b.urlSlug && r.score == b.rawScore && r.badgeUrl == b.image
  {
    BadgeRecord(b.urlSlug, b.rawScore, b.image)
  }

  /** A stored row read back with its username, as the leaderboard's dictionaries hold it. */
  function EntryOf(username: string, r: BadgeRecord): (e: Entry)
    ensures e.username == username && e.testUrlSlug == r.testUrlSlug
    ensures e.rawScore == r.score && e.badgeImage == r.badgeUrl
  {
    Entry(username, r.testUrlSlug, r.score, r.badgeUrl)
  }

  /** A session username that Python treats as true: present and not empty. */
  predicate LoggedIn(session: Option<string>)
    ensures !LoggedIn(session) <==> session == None || session == Some("")
  {
    session.Some? && session.value != ""
  }

  function Lookup(m: map<string, string>, key: string): (r: Option<string>)
    ensures r.Some? <==> key in m
    ensures r.Some? ==> r.value == m[key]
  {
    if key in m then Some(m[key]) else None
  }

  // ---------------------------------------------------------------------
  // The token table after the OAuth callback
  // ---------------------------------------------------------------------

  /**
   * The token table after `auth_complete`: with a logged-in user and a token,
   * that user holds exactly that token and every other user keeps theirs;
   * otherwise nothing is written.
   */
  function TokensAfterAuth(tokens: map<string, string>, session: Option<string>,
                           exchanged: Result<string, SmartererApi.ApiError>): (r: map<string, string>)
    ensures forall k :: k in tokens ==> k in r
    ensures forall k :: k in r && !(LoggedIn(session) && k == session.value) ==> k in tokens && r[k] == tokens[k]
    ensures LoggedIn(session) && exchanged.Success? ==>
              session.value in r && r[session.value] == exchanged.value
    ensures !LoggedIn(session) || exchanged.Failure? ==> r == tokens
  {
    if LoggedIn(session) && exchanged.Success? then tokens[session.value := exchanged.value]
    else tokens
  }

  /** Running the callback twice with the same user and token leaves the table as running it once. */
  lemma TokensAfterAuthIdempotent(tokens: map<string, string>, session: Option<string>,
                                  exchanged: Result<string, SmartererApi.ApiError>)
    ensures TokensAfterAuth(TokensAfterAuth(tokens, session, exchanged), session, exchanged)
         == TokensAfterAuth(tokens, session, exchanged)
  {
  }

  // ---------------------------------------------------------------------
  // The badge table after an update
  // ---------------------------------------------------------------------

  /** The loop of `update`: one insert-else-update of the user's row per badge, in list order. */
  function Upserts(table: map<string, BadgeRecord>, username: string, badges: seq<Badge>): map<string, BadgeRecord>
    decreases |badges|
  {
    if badges == [] then table
    else Upserts(table[username := RecordOf(badges[0])], username, badges[1..])
  }

  /** The loop writes nothing for an empty list; otherwise the user's row is the last badge's, the rest untouched. */
  lemma {:induction false} UpsertsLastWins(table: map<string, BadgeRecord>, username: string, badges: seq<Badge>)
    ensures badges == [] ==> Upserts(table, username, badges) == table
    ensures badges != [] ==> Upserts(table, username, badges) == table[username := RecordOf(badges[|badges| - 1])]
    decreases |badges|
  {
    if badges != [] {
      var next := table[username := RecordOf(badges[0])];
      UpsertsLastWins(next, username, badges[1..]);
      if badges[1..] != [] {
        assert badges[1..][|badges[1..]| - 1] == badges[|badges| - 1];
        assert next[username := RecordOf(badges[|badges| - 1])]
            == table[username := RecordOf(badges[|badges| - 1])];
      }
    }
  }

  // ---------------------------------------------------------------------
  // The store
  // ---------------------------------------------------------------------

  /**
   * The two tables. Both are keyed by username: an INSERT for a username
   * already present raises IntegrityError, and UPDATE ... WHERE username=?
   * changes that username's row only.
   */
  class Store {
    var userTokens: map<string, string>
    var userBadges: map<string, BadgeRecord>

    constructor ()
      ensures userTokens == map[] && userBadges == map[]
    {
      userTokens := map[];
      userBadges := map[];
    }

    /** INSERT INTO user_tokens: fails with IntegrityError when the username has a row. */
    method InsertToken(username: string, token: string) returns (integrityError: bool)
      modifies this
      ensures integrityError <==> username in old(userTokens)
      ensures userTokens == if integrityError then old(userTokens) else old(userTokens)[username := token]
      ensures userBadges == old(userBadges)
    {
      integrityError := username in userTokens;
      if !integrityError {
        userTokens := userTokens[username := token];
      }
    }

    /** UPDATE user_tokens SET access_token=? WHERE username=?: no row matches an absent username. */
    method UpdateToken(username: string, token: string)
      modifies this
      ensures userTokens == if username in old(userTokens) then old(userTokens)[username := token] else old(userTokens)
      ensures userBadges == old(userBadges)
    {
      if username in userTokens {
        userTokens := userTokens[username := token];
      }
    }

    /** INSERT INTO user_badges: fails with IntegrityError when the username has a row. */
    method InsertBadge(username: string, record: BadgeRecord) returns (integrityError: bool)
      modifies this
      ensures integrityError <==> username in old(userBadges)
      ensures userBadges == if integrityError then old(userBadges) else old(userBadges)[username := record]
      ensures userTokens == old(userTokens)
    {
      integrityError := username in userBadges;
      if !integrityError {
        userBadges := userBadges[username := record];
      }
    }

    /** UPDATE user_badges SET test_url_slug=?, score=?, badge_url=? WHERE username=?. */
    method UpdateBadge(username: string, record: BadgeRecord)
      modifies this
      ensures userBadges == if username in old(userBadges) then old(userBadges)[username := record] else old(userBadges)
      ensures userTokens == old(userTokens)
    {
      if username in userBadges {
        userBadges := userBadges[username := record];
      }
    }

    /**
     * The OAuth callback: without a logged-in user, redirect to the login
     * page and write nothing; otherwise exchange the code and store the token
     * by insert-else-update. An exchange that raises writes nothing.
     */
    method AuthComplete(session: Option<string>, code: string, exchange: TokenExchange) returns (page: Page)
      modifies this
      ensures userTokens == TokensAfterAuth(old(userTokens), session, exchange(code))
      ensures userBadges == old(userBadges)
      ensures !LoggedIn(session) ==> page == RedirectLogin
      ensures LoggedIn(session) && exchange(code).Failure? ==> page == ServerError(Remote(exchange(code).error))
      ensures LoggedIn(session) && exchange(code).Success? ==> page == RedirectIndex
    {
      if !LoggedIn(session) {
        return RedirectLogin;
      }
      var username := session.value;
      var exchanged := exchange(code);
      if exchanged.Failure? {
        return ServerError(Remote(exchanged.error));
      }
      var integrityError := InsertToken(username, exchanged.value);
      if integrityError {
        UpdateToken(username, exchanged.value);
      }
      page := RedirectIndex;
    }

    /**
     * The score update: `session['username']` raises when there is no user,
     * an empty name redirects to the index; otherwise fetch the badge list
     * with the stored token (if any) and upsert the user's row once per badge.
     */
    method Update(session: Option<string>, fetch: BadgeFetch) returns (page: Page)
      modifies this
      ensures userTokens == old(userTokens)
      ensures session.None? ==> page == ServerError(MissingSessionUser) && userBadges == old(userBadges)
      ensures session == Some("") ==> page == RedirectIndex && userBadges == old(userBadges)
      ensures LoggedIn(session) ==>
                var fetched := fetch(Lookup(old(userTokens), session.value));
                && (fetched.Failure? ==> page == ServerError(Remote(fetched.error)) && userBadges == old(userBadges))
                && (fetched.Success? ==>
                      page == RedirectLeaderboard && userBadges == Upserts(old(userBadges), session.value, fetched.value))
      ensures LoggedIn(session) && fetch(Lookup(old(userTokens), session.value)).Success? ==>
                var badges := fetch(Lookup(old(userTokens), session.value)).value;
                && (badges == [] ==> userBadges == old(userBadges))
                && (badges != [] ==> userBadges == old(userBadges)[session.value := RecordOf(badges[|badges| - 1])])
    {
      if session.None? {
        return ServerError(MissingSessionUser);
      }
      var username := session.value;
      if username == "" {
        return RedirectIndex;
      }
      var fetched := fetch(Lookup(userTokens, username));
      if fetched.Failure? {
        return ServerError(Remote(fetched.error));
      }
      var badges := fetched.value;
      var i := 0;
      while i < |badges|
        invariant 0 <= i <= |badges|
        invariant userTokens == old(userTokens)
        invariant Upserts(userBadges, username, badges[i..]) == Upserts(old(userBadges), username, badges)
      {
        assert badges[i..][0] == badges[i] && badges[i..][1..] == badges[i + 1..];
        var record := RecordOf(badges[i]);
        var integrityError := InsertBadge(username, record);
        if integrityError {
          UpdateBadge(username, record);
        }
        i := i + 1;
      }
      assert badges[i..] == [];
      UpsertsLastWins(old(userBadges), username, badges);
      page := RedirectLeaderboard;
    }
  }

  /**
   * The callback run twice for the same user. The second exchange is a new
   * call to the service: it may fail, or it returns the token the first one
   * did. Either way the token table ends as after the first callback alone.
   */
  method AuthCompleteTwice(store: Store, session: Option<string>,
                           code1: string, exchange1: TokenExchange,
                           code2: string, exchange2: TokenExchange)
    returns (first: Page, second: Page)
    requires exchange2(code2).Failure? || exchange2(code2) == exchange1(code1)
    modifies store
    ensures store.userTokens == TokensAfterAuth(old(store.userTokens), session, exchange1(code1))
    ensures store.userBadges == old(store.userBadges)
    ensures LoggedIn(session) && exchange2(code2).Failure? ==> second == ServerError(Remote(exchange2(code2).error))
    ensures exchange2(code2) == exchange1(code1) ==> second == first
  {
    first := store.AuthComplete(session, code1, exchange1);
    second := store.AuthComplete(session, code2, exchange2);
    TokensAfterAuthIdempotent(old(store.userTokens), session, exchange1(code1));
  }

  // ---------------------------------------------------------------------
  // The profile page
  // ---------------------------------------------------------------------

  /** The current Smarterer result shown on the profile: the first badge of the list, if any. */
  function FirstBadge(badges: seq<Badge>): (r: Option<Badge>)
    ensures r.None? <==> badges == []
    ensures r.Some? ==> r.value == badges[0]
  {
    if |badges| > 0 then Some(badges[0]) else None
  }

  /**
   * The profile shows the first badge while an update stores the last: for
   * a non-empty list, the stored row matches the shown badge exactly when the
   * first and the last badge carry the same slug, score and image.
   */
  lemma ShownBadgeIsStoredIff(table: map<string, BadgeRecord>, username: string, badges: seq<Badge>)
    requires badges != []
    ensures username in Upserts(table, username, badges)
    ensures Upserts(table, username, badges)[username] == RecordOf(FirstBadge(badges).value)
        <==> RecordOf(badges[0]) == RecordOf(badges[|badges| - 1])
  {
    UpsertsLastWins(table, username, badges);
  }

  /** SELECT * FROM user_badges WHERE test_url_slug=? AND username=?, first row. */
  function StoredBadge(table: map<string, BadgeRecord>, slug: string, username: string): (r: Option<Entry>)
    ensures r.Some? <==> username in table && table[username].testUrlSlug == slug
    ensures r.Some? ==> r.value == EntryOf(username, table[username])
  {
    if username in table && table[username].testUrlSlug == slug then Some(EntryOf(username, table[username]))
    else None
  }

  /** The client the authorization page is built with: only the configured client id. */
  function AuthorizingClient(cfg: Config): (c: SmartererApi.Smarterer)
    ensures c.clientId == Some(cfg.clientId)
    ensures c.accessToken.None? && c.clientSecret.None? && c.verify
  {
    SmartererApi.DefaultClient().(clientId := Some(cfg.clientId))
  }

  /** The client the OAuth callback exchanges codes with: the configured id and secret, SSL not verified. */
  function CallbackClient(cfg: Config): (c: SmartererApi.Smarterer)
    ensures c.clientId == Some(cfg.clientId) && c.clientSecret == Some(cfg.appSecret)
    ensures c.accessToken.None? && !c.verify
  {
    SmartererApi.Smarterer(None, Some(cfg.clientId), Some(cfg.appSecret), false)
  }

  /**
   * The exchange `auth_complete` performs against a given Smarterer service:
   * the token of a 200 answer that carries one, the HTTP error otherwise, or
   * a malformed body.
   */
  function CallbackExchange(cfg: Config, server: SmartererApi.Server,
                            accessTokenOf: string -> Option<string>): (exchange: TokenExchange)
    ensures forall code ::
              var resp := server(SmartererApi.TokenRequest(CallbackClient(cfg), code));
              && (exchange(code).Success? <==> resp.statusCode == 200 && accessTokenOf(resp.content).Some?)
              && (exchange(code).Success? ==> exchange(code).value == accessTokenOf(resp.content).value)
              && (resp.statusCode != 200 ==> exchange(code) == Failure(SmartererApi.HttpError(resp.statusCode, resp.content)))
              && (resp.statusCode == 200 && accessTokenOf(resp.content).None? ==>
                    exchange(code) == Failure(SmartererApi.MalformedBody(resp.content)))
  {
    code => SmartererApi.GetAccessToken(CallbackClient(cfg), code, server, accessTokenOf)
  }

  /**
   * The callback sends exactly the code, the grant type and the deployment's
   * id and secret to the token endpoint, without checking the certificate;
   * the token it gets back is the one the service's 200 answer carries.
   */
  lemma CallbackExchangeRequest(cfg: Config, server: SmartererApi.Server,
                                accessTokenOf: string -> Option<string>, code: string)
    ensures var req := SmartererApi.TokenRequest(CallbackClient(cfg), code);
            && req.url == SmartererApi.OAuthBaseUrl + SmartererApi.AccessTokenPath
            && !req.verify
            && req.params == map["client_id" := cfg.clientId, "client_secret" := cfg.appSecret,
                                 "code" := code, "grant_type" := "authorization_code"]
    ensures var resp := server(SmartererApi.TokenRequest(CallbackClient(cfg), code));
            CallbackExchange(cfg, server, accessTokenOf)(code).Success? <==>
              resp.statusCode == 200 && accessTokenOf(resp.content).Some?
  {
  }

  /**
   * The profile page of `username`: public unless the session user owns it;
   * an owner without a stored token is asked to authorize; an owner with one
   * sees the first badge of the fetched list next to the stored row.
   */
  function Profile(cfg: Config, table: map<string, BadgeRecord>, tokens: map<string, string>,
                   session: Option<string>, username: string, fetch: BadgeFetch): (v: ProfileView)
    ensures v.PublicProfile? <==> session != Some(username)
    ensures v.PublicProfile? ==> v == PublicProfile(username, StoredBadge(table, cfg.testUrlSlug, username))
    ensures v.PleaseAuthorize? <==> session == Some(username) && username !in tokens
    ensures v.PleaseAuthorize? ==>
              v == PleaseAuthorize(username, SmartererApi.AuthorizeUrl(AuthorizingClient(cfg), ""))
    ensures session == Some(username) && username in tokens ==>
              match fetch(Some(tokens[username]))
              case Failure(e) => v == ProfileError(e)
              case Success(badges) =>
                v == OwnerProfile(username, FirstBadge(badges), StoredBadge(table, cfg.testUrlSlug, username))
  {
    var stored := StoredBadge(table, cfg.testUrlSlug, username);
    if session != Some(username) then PublicProfile(username, stored)
    else if username !in tokens then
      PleaseAuthorize(username, SmartererApi.AuthorizeUrl(AuthorizingClient(cfg), ""))
    else
      match fetch(Some(tokens[username]))
      case Failure(e) => ProfileError(e)
      case Success(badges) => OwnerProfile(username, FirstBadge(badges), stored)
  }

  /** An owner without a token gets the authorization page whatever the service would answer: nothing is fetched. */
  lemma ProfileWithoutTokenFetchesNothing(cfg: Config, table: map<string, BadgeRecord>, tokens: map<string, string>,
                                          username: string, fetch1: BadgeFetch, fetch2: BadgeFetch)
    requires username !in tokens
    ensures Profile(cfg, table, tokens, Some(username), username, fetch1)
         == Profile(cfg, table, tokens, Some(username), username, fetch2)
    ensures Profile(cfg, table, tokens, Some(username), username, fetch1).PleaseAuthorize?
  {
  }

  // ---------------------------------------------------------------------
  // The leaderboard
  // ---------------------------------------------------------------------

  /** The rows of the configured test, in store order. */
  function WithSlug(rows: seq<Entry>, slug: string): (r: seq<Entry>)
    ensures |r| <= |rows|
    ensures forall i :: 0 <= i < |r| ==> r[i].testUrlSlug == slug
  {
    if rows == [] then []
    else (if rows[0].testUrlSlug == slug then [rows[0]] else []) + WithSlug(rows[1..], slug)
  }

  /** The slug filter keeps every row of the configured test as often as it occurs, and no other row. */
  lemma {:induction false} WithSlugCounts(rows: seq<Entry>, slug: string)
    ensures forall x :: multiset(WithSlug(rows, slug))[x] == if x.testUrlSlug == slug then multiset(rows)[x] else 0
  {
    if rows != [] {
      assert rows == [rows[0]] + rows[1..];
      WithSlugCounts(rows[1..], slug);
    }
  }

  /** The rows with a given score, in order: sorting must keep each of these lists as it was. */
  function WithScore(rows: seq<Entry>, score: real): seq<Entry> {
    if rows == [] then []
    else (if rows[0].rawScore == score then [rows[0]] else []) + WithScore(rows[1..], score)
  }

  ghost predicate SortedByScore(rows: seq<Entry>) {
    forall i, j :: 0 <= i < j < |rows| ==> rows[i].rawScore >= rows[j].rawScore
  }

  /** Filtering by slug and by score commute, so the tie lists of the leaderboard follow the store. */
  lemma {:induction false} WithScoreWithSlug(rows: seq<Entry>, slug: string, score: real)
    ensures WithScore(WithSlug(rows, slug), score) == WithSlug(WithScore(rows, score), slug)
  {
    if rows != [] {
      WithScoreWithSlug(rows[1..], slug, score);
      var head := if rows[0].testUrlSlug == slug then [rows[0]] else [];
      WithScoreConcat(head, WithSlug(rows[1..], slug), score);
      var head' := if rows[0].rawScore == score then [rows[0]] else [];
      WithSlugConcat(head', WithScore(rows[1..], score), slug);
    }
  }

  lemma {:induction false} WithScoreConcat(a: seq<Entry>, b: seq<Entry>, score: real)
    ensures WithScore(a + b, score) == WithScore(a, score) + WithScore(b, score)
  {
    if a != [] {
      assert (a + b)[1..] == a[1..] + b;
      WithScoreConcat(a[1..], b, score);
    } else {
      assert a + b == b;
    }
  }

  lemma {:induction false} WithSlugConcat(a: seq<Entry>, b: seq<Entry>, slug: string)
    ensures WithSlug(a + b, slug) == WithSlug(a, slug) + WithSlug(b, slug)
  {
    if a != [] {
      assert (a + b)[1..] == a[1..] + b;
      WithSlugConcat(a[1..], b, slug);
    } else {
      assert a + b == b;
    }
  }

  /**
   * One step of a stable sort by descending score: `x`, which came first in
   * the input, goes before the first row whose score is not higher.
   */
  function InsertByScore(x: Entry, rows: seq<Entry>): (r: seq<Entry>)
    ensures |r| == |rows| + 1
    ensures r[0] == x || (rows != [] && r[0] == rows[0])
  {
    if rows == [] || rows[0].rawScore <= x.rawScore then [x] + rows
    else [rows[0]] + InsertByScore(x, rows[1..])
  }

  lemma {:induction false} InsertByScorePermutes(x: Entry, rows: seq<Entry>)
    ensures multiset(InsertByScore(x, rows)) == multiset(rows) + multiset{x}
  {
    if !(rows == [] || rows[0].rawScore <= x.rawScore) {
      InsertByScorePermutes(x, rows[1..]);
      assert rows == [rows[0]] + rows[1..];
    }
  }

  lemma {:induction false} InsertByScoreSorted(x: Entry, rows: seq<Entry>)
    requires SortedByScore(rows)
    ensures SortedByScore(InsertByScore(x, rows))
  {
    if !(rows == [] || rows[0].rawScore <= x.rawScore) {
      InsertByScoreSorted(x, rows[1..]);
      var rest := InsertByScore(x, rows[1..]);
      var r := [rows[0]] + rest;
      forall i, j | 0 <= i < j < |r| ensures r[i].rawScore >= r[j].rawScore {
        if i == 0 {
          assert r[0].rawScore >= rest[0].rawScore;
          assert rest[0].rawScore >= rest[j - 1].rawScore || j - 1 == 0;
        }
      }
    }
  }

  /** Inserting `x` puts it at the head of the rows with its score and changes no other tie list. */
  lemma {:induction false} InsertByScoreTies(x: Entry, rows: seq<Entry>, score: real)
    ensures WithScore(InsertByScore(x, rows), score)
         == if x.rawScore == score then [x] + WithScore(rows, score) else WithScore(rows, score)
  {
    if rows == [] || rows[0].rawScore <= x.rawScore {
      assert ([x] + rows)[1..] == rows;
    } else {
      var rest := InsertByScore(x, rows[1..]);
      InsertByScoreTies(x, rows[1..], score);
      assert ([rows[0]] + rest)[1..] == rest;
    }
  }

  /** Python's `sorted(rows, key=raw_score, reverse=True)`: stable, highest score first. */
  function SortByScore(rows: seq<Entry>): (r: seq<Entry>)
    ensures multiset(r) == multiset(rows)
    ensures SortedByScore(r)
    ensures forall score :: WithScore(r, score) == WithScore(rows, score)
  {
    if rows == [] then []
    else
      var rest := SortByScore(rows[1..]);
      assert rows == [rows[0]] + rows[1..];
      InsertByScorePermutes(rows[0], rest);
      InsertByScoreSorted(rows[0], rest);
      assert forall score :: WithScore(InsertByScore(rows[0], rest), score) == WithScore(rows, score) by {
        forall score ensures WithScore(InsertByScore(rows[0], rest), score) == WithScore(rows, score) {
          InsertByScoreTies(rows[0], rest, score);
        }
      }
      InsertByScore(rows[0], rest)
  }

  lemma WithScoreWithSlugAll(rows: seq<Entry>, slug: string)
    ensures forall score :: WithScore(WithSlug(rows, slug), score) == WithSlug(WithScore(rows, score), slug)
  {
    forall score ensures WithScore(WithSlug(rows, slug), score) == WithSlug(WithScore(rows, score), slug) {
      WithScoreWithSlug(rows, slug, score);
    }
  }

  /**
   * The leaderboard: a permutation of the rows whose slug is the configured
   * one, by non-increasing score, where rows of equal score keep store order.
   */
  function LeaderboardBadges(rows: seq<Entry>, slug: string): (r: seq<Entry>)
    ensures forall x :: multiset(r)[x] == if x.testUrlSlug == slug then multiset(rows)[x] else 0
    ensures SortedByScore(r)
    ensures forall score :: WithScore(r, score) == WithSlug(WithScore(rows, score), slug)
  {
    WithScoreWithSlugAll(rows, slug);
    WithSlugCounts(rows, slug);
    SortByScore(WithSlug(rows, slug))
  }

  /** `rows` is what SELECT * FROM user_badges returns: each username's row once, in some order. */
  ghost predicate Lists(table: map<string, BadgeRecord>, rows: seq<Entry>) {
    && (forall i :: 0 <= i < |rows| ==> rows[i].username in table && rows[i] == EntryOf(rows[i].username, table[rows[i].username]))
    && (forall i, j :: 0 <= i < j < |rows| ==> rows[i].username != rows[j].username)
    && (forall u :: u in table ==> EntryOf(u, table[u]) in rows)
  }

  lemma {:induction false} DistinctOccursOnce(rows: seq<Entry>, x: Entry)
    requires forall i, j :: 0 <= i < j < |rows| ==> rows[i].username != rows[j].username
    ensures multiset(rows)[x] == if x in rows then 1 else 0
  {
    if rows != [] {
      assert rows == [rows[0]] + rows[1..];
      DistinctOccursOnce(rows[1..], x);
      if x == rows[0] {
        assert x !in rows[1..];
      }
    }
  }

  lemma TwiceCountsTwice(rows: seq<Entry>, i: int, j: int)
    requires 0 <= i < j < |rows| && rows[i] == rows[j]
    ensures multiset(rows)[rows[i]] >= 2
  {
    assert rows == rows[..j] + rows[j..];
    assert rows[i] in rows[..j];
    assert rows[j] in rows[j..];
  }

  /**
   * Over a listing of the store, the leaderboard holds each user whose row is
   * for the configured test exactly once, with that row, and no one else.
   */
  lemma LeaderboardOfStore(table: map<string, BadgeRecord>, rows: seq<Entry>, slug: string)
    requires Lists(table, rows)
    ensures var r := LeaderboardBadges(rows, slug);
            && (forall u :: u in table && table[u].testUrlSlug == slug ==> multiset(r)[EntryOf(u, table[u])] == 1)
            && (forall i :: 0 <= i < |r| ==>
                  (r[i].username in table && r[i] == EntryOf(r[i].username, table[r[i].username]) && r[i].testUrlSlug == slug))
            && (forall i, j :: 0 <= i < j < |r| ==> r[i].username != r[j].username)
  {
    var r := LeaderboardBadges(rows, slug);
    forall u | u in table && table[u].testUrlSlug == slug
      ensures multiset(r)[EntryOf(u, table[u])] == 1
    {
      DistinctOccursOnce(rows, EntryOf(u, table[u]));
    }
    forall i | 0 <= i < |r|
      ensures r[i].username in table && r[i] == EntryOf(r[i].username, table[r[i].username]) && r[i].testUrlSlug == slug
    {
      assert r[i] in multiset(r);
      assert r[i] in rows;
    }
    forall i, j | 0 <= i < j < |r|
      ensures r[i].username != r[j].username
    {
      if r[i].username == r[j].username {
        assert r[i] in multiset(r) && r[i] in rows;
        assert r[j] in multiset(r) && r[j] in rows;
        DistinctOccursOnce(rows, r[i]);
        TwiceCountsTwice(r, i, j);
        assert false;
      }
    }
  }
}
