/** The two request guards of the ingestion API: `ApiKeyGuard` and
    `ProjectKeyGuard`. Each extracts a credential by a fixed precedence,
    looks it up, and on success attaches the app to the request. Header
    names are the lower-case names Node.js gives them. */
module Guards {
  import opened Text
  import opened Errors
  import opened AppEntity
  import opened Auth

  /** The parts of an HTTP request the guards read and write. String-valued
      header, query and body fields only. */
  class Request {
    const headers: map<string, string>
    const query: map<string, string>
    const body: map<string, string>
    var app: Option<App>

    constructor (headers: map<string, string>, query: map<string, string>, body: map<string, string>)
      ensures this.headers == headers && this.query == query && this.body == body && app.None?
    {
      this.headers := headers;
      this.query := query;
      this.body := body;
      app := None;
    }
  }

  function Field(m: map<string, string>, name: string): (r: Option<string>)
    ensures r.Some? <==> name in m
    ensures r.Some? ==> r.value == m[name]
  {
    if name in m then Some(m[name]) else None
  }

  const Bearer := "Bearer "

  // ---------------------------------------------------------------------
  // ApiKeyGuard

  /** `extractApiKey`: a `Bearer ` authorization header wins, and the key is
      everything after its first seven characters; then a non-empty
      `x-api-key` header; then a non-empty `api_key` query parameter. */
  function ExtractApiKey(headers: map<string, string>, query: map<string, string>): (r: Option<string>)
    ensures var auth := Field(headers, "authorization");
      TruthyStr(auth) && StartsWith(auth.value, Bearer) ==> r == Some(auth.value[7..])
    ensures var auth := Field(headers, "authorization");
      !(TruthyStr(auth) && StartsWith(auth.value, Bearer)) ==>
        r == (if TruthyStr(Field(headers, "x-api-key")) then Field(headers, "x-api-key")
              else if TruthyStr(Field(query, "api_key")) then Field(query, "api_key")
              else None)
  {
    var auth := Field(headers, "authorization");
    if TruthyStr(auth) && StartsWith(auth.value, Bearer) then Some(SubstringFrom(auth.value, 7))
    else if TruthyStr(Field(headers, "x-api-key")) then Field(headers, "x-api-key")
    else if TruthyStr(Field(query, "api_key")) then Field(query, "api_key")
    else None
  }

  /** Whatever the extraction returns is present and non-empty, except for
      the bare `Bearer ` header, which gives the empty key. */
  lemma {:induction false} ExtractedApiKeyEmptyOnlyForBareBearer(headers: map<string, string>, query: map<string, string>)
    ensures var r := ExtractApiKey(headers, query);
      r == Some("") <==> Field(headers, "authorization") == Some(Bearer)
  {
    var auth := Field(headers, "authorization");
    var r := ExtractApiKey(headers, query);
    if TruthyStr(auth) && StartsWith(auth.value, Bearer) {
      assert r == Some(auth.value[7..]);
      if |auth.value| == 7 {
        assert auth.value == auth.value[..7] == Bearer;
      } else {
        assert |r.value| > 0;
        assert auth.value != Bearer;
      }
    } else {
      assert r.None? || TruthyStr(r);
      assert auth != Some(Bearer);
    }
  }

  const ApiKeyRequired := "API key is required"

  const InvalidApiKeyLead := "Invalid API key. API key is required to track events. passed "

  /** The message names the key it refused: two keys never share one. */
  function InvalidApiKey(key: string): (m: string)
    ensures StartsWith(m, InvalidApiKeyLead) && m[|InvalidApiKeyLead|..] == key
  {
    InvalidApiKeyLead + key
  }

  /** `canActivate` of `ApiKeyGuard`: Unauthorized when no non-empty key is
      found (a bare `Bearer ` does not fall back to the other sources) or
      when the key is unknown or the app is not ACTIVE; otherwise the app is
      attached to the request. */
  method ApiKeyCanActivate(request: Request, auth: AuthService) returns (r: Result<bool>)
    requires auth.Valid()
    modifies request
    ensures var key := ExtractApiKey(request.headers, request.query);
      && (!TruthyStr(key) ==> r == Err(Unauthorized(ApiKeyRequired)) && request.app == old(request.app))
      && (TruthyStr(key) && auth.ValidateApiKey(key.value).None? ==>
            r == Err(Unauthorized(InvalidApiKey(key.value))) && request.app == old(request.app))
      && (TruthyStr(key) && auth.ValidateApiKey(key.value).Some? ==>
            r == Ok(true) && request.app == auth.ValidateApiKey(key.value))
  {
    var key := ExtractApiKey(request.headers, request.query);
    if !TruthyStr(key) {
      return Err(Unauthorized(ApiKeyRequired));
    }
    var app := auth.ValidateApiKey(key.value);
    if app.None? {
      return Err(Unauthorized(InvalidApiKey(key.value)));
    }
    request.app := app;
    r := Ok(true);
  }

  // ---------------------------------------------------------------------
  // ProjectKeyGuard

  /** `extractProjectKey`: a non-empty `projectKey` in the body, then the
      `x-project-key` header, then the `project_key` query parameter, and
      last a Bearer token, taken only when it has no `.` and starts with
      `app_`. */
  function ExtractProjectKey(headers: map<string, string>, query: map<string, string>, body: map<string, string>): (r: Option<string>)
    ensures TruthyStr(Field(body, "projectKey")) ==> r == Field(body, "projectKey")
    ensures !TruthyStr(Field(body, "projectKey")) && TruthyStr(Field(headers, "x-project-key")) ==>
              r == Field(headers, "x-project-key")
    ensures (!TruthyStr(Field(body, "projectKey")) && !TruthyStr(Field(headers, "x-project-key"))
             && TruthyStr(Field(query, "project_key"))) ==> r == Field(query, "project_key")
    ensures r.Some? ==> r.value != ""
    ensures (r.Some? && !TruthyStr(Field(body, "projectKey")) && !TruthyStr(Field(headers, "x-project-key"))
             && !TruthyStr(Field(query, "project_key"))) ==>
              StartsWith(r.value, "app_") && !Contains(r.value, ".")
              && Field(headers, "authorization") == Some(Bearer + r.value)
    ensures (!TruthyStr(Field(body, "projectKey")) && !TruthyStr(Field(headers, "x-project-key"))
             && !TruthyStr(Field(query, "project_key"))) ==>
              var a := Field(headers, "authorization");
              r == if TruthyStr(a) && StartsWith(a.value, Bearer)
                      && !Contains(a.value[|Bearer|..], ".") && StartsWith(a.value[|Bearer|..], "app_")
                   then Some(a.value[|Bearer|..]) else None
  {
    if TruthyStr(Field(body, "projectKey")) then Field(body, "projectKey")
    else if TruthyStr(Field(headers, "x-project-key")) then Field(headers, "x-project-key")
    else if TruthyStr(Field(query, "project_key")) then Field(query, "project_key")
    else
      var auth := Field(headers, "authorization");
      if TruthyStr(auth) && StartsWith(auth.value, Bearer) then
        var token := SubstringFrom(auth.value, 7);
        assert auth.value == Bearer + token;
        if !Contains(token, ".") && StartsWith(token, "app_") then Some(token) else None
      else None
  }

  /** A token that looks like a JWT (it contains a dot) is never taken as a
      project key: with no other source, no key is found. */
  lemma {:induction false} JwtBearerNeverProjectKey(headers: map<string, string>, token: string)
    requires Field(headers, "authorization") == Some(Bearer + token) && Contains(token, ".")
    requires !TruthyStr(Field(headers, "x-project-key"))
    ensures ExtractProjectKey(headers, map[], map[]) == None
  {
    assert (Bearer + token)[7..] == token;
  }

  /** An `app_` token without a dot in the Bearer header is taken as the
      project key when no other source gives one. */
  lemma {:induction false} AppBearerIsProjectKey(headers: map<string, string>, token: string)
    requires Field(headers, "authorization") == Some(Bearer + token)
    requires StartsWith(token, "app_") && !Contains(token, ".")
    requires !TruthyStr(Field(headers, "x-project-key"))
    ensures ExtractProjectKey(headers, map[], map[]) == Some(token)
  {
    assert (Bearer + token)[|Bearer|..] == token;
    assert StartsWith(Bearer + token, Bearer);
  }

  const ProjectKeyRequired := "Project key is required"
  const InvalidProjectKey := "Invalid project key"

  /** `canActivate` of `ProjectKeyGuard`. The guard calls
      `authService.validateProjectKey`, which `AuthService` does not define;
      the lookup is therefore a parameter here. */
  method ProjectKeyCanActivate(request: Request, validateProjectKey: string -> Option<App>) returns (r: Result<bool>)
    modifies request
    ensures var key := ExtractProjectKey(request.headers, request.query, request.body);
      && (key.None? ==> r == Err(Unauthorized(ProjectKeyRequired)) && request.app == old(request.app))
      && (key.Some? && validateProjectKey(key.value).None? ==>
            r == Err(Unauthorized(InvalidProjectKey)) && request.app == old(request.app))
      && (key.Some? && validateProjectKey(key.value).Some? ==>
            r == Ok(true) && request.app == validateProjectKey(key.value))
  {
    var key := ExtractProjectKey(request.headers, request.query, request.body);
    if !TruthyStr(key) {
      return Err(Unauthorized(ProjectKeyRequired));
    }
    var app := validateProjectKey(key.value);
    if app.None? {
      return Err(Unauthorized(InvalidProjectKey));
    }
    request.app := app;
    r := Ok(true);
  }
}
