/**
 * The Smarterer API client: how it builds query parameters, resource URLs and
 * the OAuth URLs, and how it turns an HTTP response into content or an error.
 *
 * The client object never changes after it is built, so it is a datatype and
 * every operation is a function of it. The HTTP server is a parameter of type
 * `Server` (what a GET with a URL, query and SSL flag answers), and parsing a
 * JSON body is a parameter as well.
 */
module SmartererApi {
  import opened Wrappers

  const ApiBaseUrl: string := "https://smarterer.com/api/"
  const OAuthBaseUrl: string := "https://smarterer.com/oauth"

  /** The path and query prefix of the authorization page. */
  const AuthorizePath: string := "/authorize?client_id="
  /** The path of the token exchange endpoint. */
  const AccessTokenPath: string := "/access_token"

  /** The four fields set once when the client is created. */
  datatype Smarterer = Smarterer(
    accessToken: Option<string>,
    clientId: Option<string>,
    clientSecret: Option<string>,
    verify: bool)

  /** A GET request: URL, query parameters and whether the SSL certificate is checked. */
  datatype Request = Request(url: string, params: map<string, string>, verify: bool)

  /** An HTTP response reduced to its status code and raw content. */
  datatype Response = Response(statusCode: int, content: string)

  /**
   * What a call can raise: SmartererApiHttpException on a non-200 response
   * (carrying the status and the content it reports), or a body that does not
   * parse or lacks the expected field.
   */
  datatype ApiError = HttpError(statusCode: int, content: string) | MalformedBody(content: string)

  /** The remote service, as the answer it gives to each request. */
  type Server = Request -> Response

  /** The default arguments of the client's constructor. */
  function DefaultClient(): (c: Smarterer)
    ensures c.accessToken.None? && c.clientId.None? && c.clientSecret.None? && c.verify
  {
    Smarterer(None, None, None, true)
  }

  /** Python's string formatting of an optional string: `None` prints as "None". */
  function FormatValue(o: Option<string>): (s: string)
    ensures o.Some? ==> s == o.value
    ensures o.None? ==> s == "None"
  {
    match o
    case Some(v) => v
    case None => "None"
  }

  /** No pair after position i with the same key carries a value. */
  ghost predicate LastPresent(pairs: seq<(string, Option<string>)>, i: int)
    requires 0 <= i < |pairs|
  {
    forall j :: i < j < |pairs| && pairs[j].1.Some? ==> pairs[j].0 != pairs[i].0
  }

  /**
   * `dict(filter(lambda x: x[1] is not None, pairs))`: the pairs whose value
   * is present, as a dictionary in which a later pair overrides an earlier one.
   */
  function PresentParams(pairs: seq<(string, Option<string>)>): (p: map<string, string>)
    ensures forall k :: k in p <==> exists i :: 0 <= i < |pairs| && pairs[i].0 == k && pairs[i].1.Some?
    ensures forall i :: 0 <= i < |pairs| && pairs[i].1.Some? && LastPresent(pairs, i) ==>
              pairs[i].0 in p && p[pairs[i].0] == pairs[i].1.value
  {
    if pairs == [] then map[]
    else
      var init := pairs[..|pairs| - 1];
      var last := pairs[|pairs| - 1];
      var rest := PresentParams(init);
      assert forall i :: 0 <= i < |init| ==> init[i] == pairs[i];
      if last.1.Some? then rest[last.0 := last.1.value] else rest
  }

  /** The query `_fetch` sends: `client_id` and `access_token`, each only when set. */
  function FetchParams(c: Smarterer): (p: map<string, string>)
    ensures "client_id" in p <==> c.clientId.Some?
    ensures c.clientId.Some? ==> p["client_id"] == c.clientId.value
    ensures "access_token" in p <==> c.accessToken.Some?
    ensures c.accessToken.Some? ==> p["access_token"] == c.accessToken.value
    ensures forall k :: k in p ==> k == "client_id" || k == "access_token"
  {
    var pairs := [("client_id", c.clientId), ("access_token", c.accessToken)];
    assert LastPresent(pairs, 0) && LastPresent(pairs, 1);
    PresentParams(pairs)
  }

  /** `_fetch`: GET the URL with the client's query; a non-200 status raises. */
  function Fetch(c: Smarterer, url: string, server: Server): (r: Result<string, ApiError>)
    ensures var resp := server(Request(url, FetchParams(c), c.verify));
            && (r.Success? <==> resp.statusCode == 200)
            && (r.Success? ==> r.value == resp.content)
            && (r.Failure? ==> r.error == HttpError(resp.statusCode, resp.content))
  {
    var resp := server(Request(url, FetchParams(c), c.verify));
    if resp.statusCode != 200 then Failure(HttpError(resp.statusCode, resp.content))
    else Success(resp.content)
  }

  /** The URL of a resource: the API base URL followed by the resource name. */
  function ResourceUrl(resourceName: string): (url: string)
    ensures |url| == |ApiBaseUrl| + |resourceName|
    ensures url[..|ApiBaseUrl|] == ApiBaseUrl
    ensures url[|ApiBaseUrl|..] == resourceName
  {
    ApiBaseUrl + resourceName
  }

  /** Distinct resources are requested at distinct URLs. */
  lemma ResourceUrlInjective(a: string, b: string)
    requires ResourceUrl(a) == ResourceUrl(b)
    ensures a == b
  {
  }

  /**
   * `_req`: fetch a resource under the API base URL. The JSON decoding of the
   * content is not part of this model, so the content is returned as it came.
   */
  function Req(c: Smarterer, resourceName: string, server: Server): (r: Result<string, ApiError>)
    ensures r == Fetch(c, ResourceUrl(resourceName), server)
  {
    Fetch(c, ApiBaseUrl + resourceName, server)
  }

  /** The resource `badges` names: all badges, or one user's after a slash. */
  function BadgesResource(username: Option<string>): (resource: string)
    ensures |resource| >= 6 && resource[..6] == "badges"
    ensures username.None? || username.value == "" ==> resource == "badges"
    ensures username.Some? && username.value != "" ==>
              |resource| > 7 && resource[6] == '/' && resource[7..] == username.value
  {
    if username.Some? && username.value != "" then "badges" + "/" + username.value
    else "badges"
  }

  /** The user's name can be read back from the resource, and only the unscoped call asks for "badges". */
  lemma BadgesResourceInjective(a: Option<string>, b: Option<string>)
    requires BadgesResource(a) == BadgesResource(b)
    ensures (a.None? || a.value == "") <==> (b.None? || b.value == "")
    ensures a.Some? && a.value != "" ==> b == a
  {
  }

  /** `badges`: the badges of the whole account, or of one user. */
  function Badges(c: Smarterer, username: Option<string>, server: Server): (r: Result<string, ApiError>)
    ensures r == Fetch(c, ResourceUrl(BadgesResource(username)), server)
  {
    Req(c, BadgesResource(username), server)
  }

  /** `authorize_url`: the OAuth authorization page for this client id; `callback` is not used. */
  function AuthorizeUrl(c: Smarterer, callback: string): (url: string)
    ensures |url| == |OAuthBaseUrl| + |AuthorizePath| + |FormatValue(c.clientId)|
    ensures url[..|OAuthBaseUrl| + |AuthorizePath|] == OAuthBaseUrl + AuthorizePath
    ensures url[|OAuthBaseUrl| + |AuthorizePath|..] == FormatValue(c.clientId)
  {
    OAuthBaseUrl + AuthorizePath + FormatValue(c.clientId)
  }

  /** Two authorization URLs are equal exactly when the formatted client ids are, whatever the callbacks. */
  lemma AuthorizeUrlDeterminedByClientId(c1: Smarterer, cb1: string, c2: Smarterer, cb2: string)
    ensures AuthorizeUrl(c1, cb1) == AuthorizeUrl(c2, cb2) <==> FormatValue(c1.clientId) == FormatValue(c2.clientId)
  {
  }

  /**
   * The request `get_access_token` sends. The `requests` library leaves out
   * parameters whose value is None, so the query is built like `_fetch`'s.
   */
  function TokenRequest(c: Smarterer, code: string): (req: Request)
    ensures req.url == OAuthBaseUrl + AccessTokenPath && req.verify == c.verify
    ensures "grant_type" in req.params && req.params["grant_type"] == "authorization_code"
    ensures "code" in req.params && req.params["code"] == code
    ensures "client_id" in req.params <==> c.clientId.Some?
    ensures c.clientId.Some? ==> req.params["client_id"] == c.clientId.value
    ensures "client_secret" in req.params <==> c.clientSecret.Some?
    ensures c.clientSecret.Some? ==> req.params["client_secret"] == c.clientSecret.value
    ensures forall k :: k in req.params ==> k in {"client_id", "client_secret", "code", "grant_type"}
  {
    var pairs := [("client_id", c.clientId), ("client_secret", c.clientSecret),
                  ("code", Some(code)), ("grant_type", Some("authorization_code"))];
    assert LastPresent(pairs, 0) && LastPresent(pairs, 1) && LastPresent(pairs, 2) && LastPresent(pairs, 3);
    Request(OAuthBaseUrl + AccessTokenPath, PresentParams(pairs), c.verify)
  }

  /**
   * `get_access_token`: exchange an authorization code for an access token.
   * `accessTokenOf` stands for parsing the body and taking `str` of its
   * `access_token` field; None means the body does not parse or lacks it.
   */
  function GetAccessToken(c: Smarterer, code: string, server: Server,
                          accessTokenOf: string -> Option<string>): (r: Result<string, ApiError>)
    ensures var resp := server(TokenRequest(c, code));
            && (resp.statusCode != 200 ==> r == Failure(HttpError(resp.statusCode, resp.content)))
            && (resp.statusCode == 200 && accessTokenOf(resp.content).None? ==>
                  r == Failure(MalformedBody(resp.content)))
            && (resp.statusCode == 200 && accessTokenOf(resp.content).Some? ==>
                  r == Success(accessTokenOf(resp.content).value))
  {
    var resp := server(TokenRequest(c, code));
    if resp.statusCode != 200 then Failure(HttpError(resp.statusCode, resp.content))
    else
      match accessTokenOf(resp.content)
      case None => Failure(MalformedBody(resp.content))
      case Some(token) => Success(token)
  }
}
