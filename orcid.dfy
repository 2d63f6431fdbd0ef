/** backend/external_services/orcid_service.py: `ORCIDService`, the
    configuration check, the authorization URL of the OAuth 2.0 code flow
    and the mapping of the token endpoint's answer. The process environment
    is a parameter; the HTTP exchange is a function from request to
    response. */
module Orcid {
  import opened Wrappers
  import opened PyText
  import opened PyList
  import opened Metadata

  /** The process environment as `os.getenv` sees it. */
  type Env = map<string, string>

  /** `os.getenv(name)`. */
  function GetEnv(env: Env, name: string): Option<string> {
    if name in env then Some(env[name]) else None
  }

  /** `os.getenv(name, default)`. */
  function GetEnvOr(env: Env, name: string, default: string): (r: string)
    ensures name in env ==> r == env[name]
    ensures name !in env ==> r == default
  {
    if name in env then env[name] else default
  }

  /** Python truthiness of an optional text: present and not empty. */
  predicate Truthy(x: Option<string>) {
    x.Some? && x.value != ""
  }

  const DefaultTokenUrl := "https://orcid.org/oauth/token"
  const DefaultAuthorizeUrl := "https://orcid.org/oauth/authorize"

  /** The variables `__init__` requires, in the order it reports them. */
  const RequiredVars: seq<string> := ["ORCID_CLIENT_ID", "ORCID_CLIENT_SECRET", "ORCID_REDIRECT_URI"]

  /** All three required variables are set and not empty. */
  predicate ConfiguredIn(env: Env) {
    forall n :: n in RequiredVars ==> Truthy(GetEnv(env, n))
  }

  /** The `missing` list of `__init__`: the required variables that are
      unset or empty, in the fixed order. */
  method MissingNames(env: Env) returns (missing: seq<string>)
    ensures forall n :: n in missing <==> n in RequiredVars && !Truthy(GetEnv(env, n))
    ensures IsSubsequence(missing, RequiredVars)
    ensures missing == [] <==> ConfiguredIn(env)
    ensures missing == Filter(RequiredVars, n => !Truthy(GetEnv(env, n)))
  {
    missing := [];
    if !Truthy(GetEnv(env, "ORCID_CLIENT_ID")) {
      missing := missing + ["ORCID_CLIENT_ID"];
    }
    if !Truthy(GetEnv(env, "ORCID_CLIENT_SECRET")) {
      missing := missing + ["ORCID_CLIENT_SECRET"];
    }
    if !Truthy(GetEnv(env, "ORCID_REDIRECT_URI")) {
      missing := missing + ["ORCID_REDIRECT_URI"];
    }
    MissingIsFilter(env, missing);
  }

  /** Three appends in the order of the list select the same names as
      filtering the list. */
  lemma MissingIsFilter(env: Env, missing: seq<string>)
    requires missing ==
      (if Truthy(GetEnv(env, "ORCID_CLIENT_ID")) then [] else ["ORCID_CLIENT_ID"])
      + (if Truthy(GetEnv(env, "ORCID_CLIENT_SECRET")) then [] else ["ORCID_CLIENT_SECRET"])
      + (if Truthy(GetEnv(env, "ORCID_REDIRECT_URI")) then [] else ["ORCID_REDIRECT_URI"])
    ensures missing == Filter(RequiredVars, n => !Truthy(GetEnv(env, n)))
  {
    assert RequiredVars[1..] == ["ORCID_CLIENT_SECRET", "ORCID_REDIRECT_URI"];
    assert RequiredVars[1..][1..] == ["ORCID_REDIRECT_URI"];
    assert RequiredVars[1..][1..][1..] == [];
  }

  /** The answer of the token endpoint: the HTTP call failed (httpx raises),
      or a status and a body that parses as JSON (`Some`) or does not. */
  datatype HttpResponse =
    | HttpFailure
    | HttpResponse(status: int, json: Option<Value>)

  /** `dict.get(key)` on the decoded JSON object: the value of the last entry
      with that key (JSON decoding keeps the last duplicate), None when it is
      absent. */
  function Get(entries: seq<(string, Value)>, key: string): (r: Option<Value>)
    ensures r.None? <==> forall i :: 0 <= i < |entries| ==> entries[i].0 != key
    ensures r.Some? ==>
      exists i :: 0 <= i < |entries| && entries[i] == (key, r.value)
        && forall j :: i < j < |entries| ==> entries[j].0 != key
  {
    if entries == [] then None
    else if entries[|entries| - 1].0 == key then Some(entries[|entries| - 1].1)
    else Get(entries[..|entries| - 1], key)
  }

  /** The dictionary `exchange_code_for_token` returns; a field is None
      when the answer lacks it. */
  datatype TokenResult = TokenResult(
    orcidId: Option<Value>,
    accessToken: Option<Value>,
    name: Option<Value>,
    expiresIn: Option<Value>,
    scope: Option<Value>,
    tokenType: Option<Value>)

  /** Python truthiness of a decoded JSON value. */
  predicate JsonTruthy(v: Value) {
    match v
    case Str(s) => s != ""
    case Int(i) => i != 0
    case Float(x) => x != 0.0
    case Bool(b) => b
    case List(items) => items != []
    case Dict(entries) => entries != []
    case _ => true
  }

  /** The success log line slices the access token (`[:20]`) whenever it is
      truthy; a JSON number, boolean or object does not take a slice and
      raises TypeError, which is passed on. */
  predicate TokenLogRaises(token: Option<Value>) {
    token.Some? && JsonTruthy(token.value)
    && (token.value.Int? || token.value.Float? || token.value.Bool? || token.value.Dict?)
  }

  /** The form fields of the token request, in the order they are sent. */
  const TokenFields: seq<string> := ["client_id", "client_secret", "grant_type", "redirect_uri", "code"]

  class OrcidService {
    var clientId: Option<string>
    var clientSecret: Option<string>
    var redirectUri: Option<string>
    var tokenUrl: string
    var isConfigured: bool

    /** `ORCIDService()`: reads the three credentials and the token URL;
        the service counts as configured exactly when the credentials are
        all set and not empty. An unconfigured service is still built. */
    constructor (env: Env)
      ensures clientId == GetEnv(env, "ORCID_CLIENT_ID")
      ensures clientSecret == GetEnv(env, "ORCID_CLIENT_SECRET")
      ensures redirectUri == GetEnv(env, "ORCID_REDIRECT_URI")
      ensures tokenUrl == GetEnvOr(env, "ORCID_TOKEN_URL", DefaultTokenUrl)
      ensures isConfigured <==> ConfiguredIn(env)
    {
      clientId := GetEnv(env, "ORCID_CLIENT_ID");
      clientSecret := GetEnv(env, "ORCID_CLIENT_SECRET");
      redirectUri := GetEnv(env, "ORCID_REDIRECT_URI");
      tokenUrl := GetEnvOr(env, "ORCID_TOKEN_URL", DefaultTokenUrl);
      var missing := MissingNames(env);
      isConfigured := missing == [];
    }

    /** The query parameters of the authorization URL, in order, each as
        `key=value`. */
    function AuthorizationParams(): seq<string>
      reads this
    {
      ["client_id=" + StrOrNone(clientId),
       "response_type=code",
       "scope=/authenticate",
       "redirect_uri=" + StrOrNone(redirectUri)]
    }

    /** `get_authorization_url`: ValueError when unconfigured; otherwise
        the authorize endpoint (ORCID_AUTHORIZE_URL or the ORCID default),
        `?`, and the parameters joined with `&`, none of them encoded. */
    function GetAuthorizationUrl(env: Env): (r: Result<string>)
      reads this
      ensures r.Err? <==> !isConfigured
      ensures r.Err? ==> r == Err(ValueError)
      ensures r.Ok? ==> StartsWith(r.value, GetEnvOr(env, "ORCID_AUTHORIZE_URL", DefaultAuthorizeUrl) + "?")
    {
      if !isConfigured then Err(ValueError)
      else
        var base := GetEnvOr(env, "ORCID_AUTHORIZE_URL", DefaultAuthorizeUrl);
        var url := base + "?" + Join(AuthorizationParams(), '&');
        assert url[..|base + "?"|] == base + "?";
        Ok(url)
    }

    /** `exchange_code_for_token`: ValueError when unconfigured, before any
        request; the HTTP error of a failed call; ValueError for a status
        other than 200 and for a body that is not JSON; AttributeError when
        the JSON is not an object; TypeError when the success log line cannot
        slice the access token; otherwise the six fields looked up with
        `.get`, `orcid` reported as the ORCID iD. */
    function ExchangeCodeForToken(code: string, respond: (string, seq<(string, Option<string>)>) -> HttpResponse)
      : (r: Result<TokenResult>)
      reads this
      ensures !isConfigured ==> r == Err(ValueError)
      ensures r.Ok? <==>
        && isConfigured
        && var resp := respond(tokenUrl, TokenRequest(code));
        && resp.HttpResponse? && resp.status == 200 && resp.json.Some? && resp.json.value.Dict?
        && !TokenLogRaises(Get(resp.json.value.entries, "access_token"))
      ensures r.Ok? ==>
        var body := respond(tokenUrl, TokenRequest(code)).json.value.entries;
        && r.value.orcidId == Get(body, "orcid")
        && r.value.accessToken == Get(body, "access_token")
        && r.value.name == Get(body, "name")
        && r.value.expiresIn == Get(body, "expires_in")
        && r.value.scope == Get(body, "scope")
        && r.value.tokenType == Get(body, "token_type")
      ensures isConfigured && respond(tokenUrl, TokenRequest(code)).HttpFailure? ==> r == Err(HTTPError)
      ensures (isConfigured && respond(tokenUrl, TokenRequest(code)).HttpResponse?
               && respond(tokenUrl, TokenRequest(code)).status != 200) ==> r == Err(ValueError)
      ensures (isConfigured && respond(tokenUrl, TokenRequest(code)).HttpResponse?
               && respond(tokenUrl, TokenRequest(code)).status == 200
               && respond(tokenUrl, TokenRequest(code)).json.Some?
               && respond(tokenUrl, TokenRequest(code)).json.value.Dict?
               && TokenLogRaises(Get(respond(tokenUrl, TokenRequest(code)).json.value.entries, "access_token")))
              ==> r == Err(TypeError)
    {
      if !isConfigured then Err(ValueError)
      else
        match respond(tokenUrl, TokenRequest(code))
        case HttpFailure => Err(HTTPError)
        case HttpResponse(status, json) =>
          if status != 200 then Err(ValueError)
          else if json.None? then Err(ValueError)
          else if !json.value.Dict? then Err(AttributeError)
          else
            var body := json.value.entries;
            if TokenLogRaises(Get(body, "access_token")) then Err(TypeError)
            else Ok(TokenResult(Get(body, "orcid"), Get(body, "access_token"), Get(body, "name"),
                           Get(body, "expires_in"), Get(body, "scope"), Get(body, "token_type")))
    }

    /** The form sent to the token endpoint: the credentials, the grant
        type `authorization_code` and the code. */
    function TokenRequest(code: string): (r: seq<(string, Option<string>)>)
      reads this
      ensures |r| == |TokenFields|
      ensures forall i :: 0 <= i < |r| ==> r[i].0 == TokenFields[i]
      ensures r[0].1 == clientId && r[1].1 == clientSecret && r[3].1 == redirectUri
      ensures r[2].1 == Some("authorization_code") && r[4].1 == Some(code)
    {
      [("client_id", clientId),
       ("client_secret", clientSecret),
       ("grant_type", Some("authorization_code")),
       ("redirect_uri", redirectUri),
       ("code", Some(code))]
    }
  }

  /** An unconfigured service raises ValueError from both operations,
      whatever the token endpoint would answer. */
  lemma UnconfiguredRaisesFirst(s: OrcidService, env: Env, code: string,
                              respond: (string, seq<(string, Option<string>)>) -> HttpResponse)
    requires s.isConfigured <==> ConfiguredIn(env)
    requires !ConfiguredIn(env)
    ensures s.GetAuthorizationUrl(env) == Err(ValueError)
    ensures s.ExchangeCodeForToken(code, respond) == Err(ValueError)
  {
  }

  /** A successful answer whose access token is the number 5 fails: the
      success log line cannot slice it. */
  lemma NumericAccessTokenRaises(s: OrcidService, code: string,
                                 respond: (string, seq<(string, Option<string>)>) -> HttpResponse)
    requires s.isConfigured
    requires respond(s.tokenUrl, s.TokenRequest(code)) == HttpResponse(200, Some(Dict([("access_token", Int(5))])))
    ensures s.ExchangeCodeForToken(code, respond) == Err(TypeError)
  {
    assert Get([("access_token", Int(5))], "access_token") == Some(Int(5));
  }

  /** For a configured service whose client id and redirect URI hold no
      `&`, the query part of the authorization URL splits back into exactly
      the four parameters, in order. */
  lemma {:induction false} AuthorizationUrlParses(s: OrcidService, env: Env)
    requires s.isConfigured && s.clientId.Some? && s.redirectUri.Some?
    requires '&' !in s.clientId.value && '&' !in s.redirectUri.value
    ensures var base := GetEnvOr(env, "ORCID_AUTHORIZE_URL", DefaultAuthorizeUrl);
      exists query ::
        && s.GetAuthorizationUrl(env) == Ok(base + "?" + query)
        && Split(query, '&') == ["client_id=" + s.clientId.value,
                                 "response_type=code",
                                 "scope=/authenticate",
                                 "redirect_uri=" + s.redirectUri.value]
  {
    var ps := s.AuthorizationParams();
    forall p | p in ps ensures '&' !in p {
      NoAmpersandInPiece(p, ps, s.clientId.value, s.redirectUri.value);
    }
    JoinSplit(ps, '&');
    var query := Join(ps, '&');
    assert s.GetAuthorizationUrl(env).value == GetEnvOr(env, "ORCID_AUTHORIZE_URL", DefaultAuthorizeUrl) + "?" + query;
  }

  lemma NoAmpersandInPiece(p: string, ps: seq<string>, id: string, uri: string)
    requires ps == ["client_id=" + id, "response_type=code", "scope=/authenticate", "redirect_uri=" + uri]
    requires p in ps && '&' !in id && '&' !in uri
    ensures '&' !in p
  {
  }

  /** Since nothing is percent-encoded, an `&` in the redirect URI ends the
      `redirect_uri` parameter early and the rest reads as a fifth
      parameter. */
  lemma {:induction false} AmpersandInRedirectAddsParameter(s: OrcidService, env: Env, u1: string, u2: string)
    requires s.isConfigured && s.clientId.Some? && '&' !in s.clientId.value
    requires s.redirectUri == Some(u1 + "&" + u2) && '&' !in u1 && '&' !in u2
    ensures var base := GetEnvOr(env, "ORCID_AUTHORIZE_URL", DefaultAuthorizeUrl);
      exists query ::
        && s.GetAuthorizationUrl(env) == Ok(base + "?" + query)
        && Split(query, '&') == ["client_id=" + s.clientId.value,
                                 "response_type=code",
                                 "scope=/authenticate",
                                 "redirect_uri=" + u1,
                                 u2]
  {
    var id := s.clientId.value;
    var ps := s.AuthorizationParams();
    var split := ["client_id=" + id, "response_type=code", "scope=/authenticate", "redirect_uri=" + u1, u2];
    forall p | p in split ensures '&' !in p {
      if p != u2 {
        assert p in split[..4];
        NoAmpersandInPiece(p, split[..4], id, u1);
      }
    }
    JoinSplit(split, '&');
    var amp := ['&'];
    calc {
      Join(ps, '&');
      ps[0] + amp + Join(ps[1..], '&');
      { assert ps[1..][1..] == ps[2..]; }
      ps[0] + amp + (ps[1] + amp + Join(ps[2..], '&'));
      { assert ps[2..][1..] == ps[3..]; assert Join(ps[3..], '&') == ps[3]; }
      ps[0] + amp + (ps[1] + amp + (ps[2] + amp + ps[3]));
      { assert ps[3] == split[3] + amp + u2; }
      split[0] + amp + (split[1] + amp + (split[2] + amp + (split[3] + amp + u2)));
      { assert split[4..] == [u2]; assert split[3..][1..] == split[4..]; }
      split[0] + amp + (split[1] + amp + (split[2] + amp + Join(split[3..], '&')));
      { assert split[2..][1..] == split[3..]; }
      split[0] + amp + (split[1] + amp + Join(split[2..], '&'));
      { assert split[1..][1..] == split[2..]; }
      split[0] + amp + Join(split[1..], '&');
      Join(split, '&');
    }
  }
}
