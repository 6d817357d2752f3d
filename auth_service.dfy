/**
 * The authentication service: sign-up, sign-in, sign-out, lazy refresh of an
 * expired session, and the headers stamped on protected requests.
 * The HTTP exchange is an input (the response the backend gives); each
 * request sent is recorded in a ghost log so that "no network call" reads
 * as "the log is unchanged".
 */
module Auth {
  import opened Wrappers
  import opened Text
  import opened Models
  import opened AuthState

  const UrlSetting: string := "Supabase:Url"
  const AnonKeySetting: string := "Supabase:AnonKey"
  const MissingUrl: string := "Missing Supabase:Url in wwwroot/appsettings.json"
  const MissingAnonKey: string := "Missing Supabase:AnonKey in wwwroot/appsettings.json"

  const SignUpPath: string := "/auth/v1/signup"
  const PasswordGrantPath: string := "/auth/v1/token?grant_type=password"
  const RefreshGrantPath: string := "/auth/v1/token?grant_type=refresh_token"

  const InvalidSessionResponse: string := "Invalid session response"

  /** One request header, name and rendered value. */
  datatype Header = Header(name: string, value: string)

  /** The fields of a JSON request body. */
  datatype RequestBody = Credentials(email: string, password: string) | RefreshToken(refreshToken: string)

  /** A POST to the backend with a JSON body. */
  datatype Request = Request(endpoint: string, headers: seq<Header>, body: RequestBody)

  /**
   * What the backend answered: whether the status was a success, the body
   * text, and the session the body deserializes to (None for a JSON `null`).
   */
  datatype Response = Response(success: bool, body: string, parsed: Option<Session>)

  /** The backend's base URL and public API key. */
  datatype Config = Config(url: string, anonKey: string)

  /** The two settings the service needs; the URL is looked up first. */
  function ReadConfig(settings: map<string, string>): (r: Result<Config, string>)
    ensures r.Success? <==> UrlSetting in settings && AnonKeySetting in settings
    ensures r.Success? ==> r.value == Config(settings[UrlSetting], settings[AnonKeySetting])
    ensures UrlSetting !in settings ==> r == Failure(MissingUrl)
    ensures UrlSetting in settings && AnonKeySetting !in settings ==> r == Failure(MissingAnonKey)
  {
    if UrlSetting !in settings then Failure(MissingUrl)
    else if AnonKeySetting !in settings then Failure(MissingAnonKey)
    else Success(Config(settings[UrlSetting], settings[AnonKeySetting]))
  }

  /** An auth request: the base URL followed by `path`, with the API key as its one header. */
  function AuthRequest(cfg: Config, path: string, body: RequestBody): (r: Request)
    ensures |r.endpoint| == |cfg.url| + |path|
    ensures r.endpoint[..|cfg.url|] == cfg.url && r.endpoint[|cfg.url|..] == path
    ensures r.headers == [Header("apikey", cfg.anonKey)] && r.body == body
  {
    Request(cfg.url + path, [Header("apikey", cfg.anonKey)], body)
  }

  /** A response a session may be taken from: a success whose session has a non-blank access token. */
  predicate IsUsable(res: Response)
    ensures IsUsable(res) ==> res.success && res.parsed.Some? && |res.parsed.value.accessToken| > 0
    ensures res.parsed.Some? && res.parsed.value.accessToken == "" ==> !IsUsable(res)
  {
    res.success && res.parsed.Some? && !IsNullOrWhiteSpace(res.parsed.value.accessToken)
  }

  /**
   * The session to store after a sign-in or refresh response: the parsed
   * session restamped with `now`, or None when the response is rejected.
   */
  function AcceptedSession(res: Response, now: int): (r: Option<Session>)
    ensures r.Some? <==> IsUsable(res)
    ensures r.Some? ==> r.value == res.parsed.value.(issuedAt := now)
    ensures r.Some? ==> IdentityOf(r) == Authenticated(r.value.user.id, r.value.user.email.GetOr(""))
    ensures r.Some? ==> !IsExpired(r.value, now)
  {
    if IsUsable(res) then Some(res.parsed.value.(issuedAt := now)) else None
  }

  /** What `SignInAsync` returns for a response: `(ok, error)`. */
  function SignInReply(res: Response): (r: (bool, Option<string>))
    ensures r.0 <==> IsUsable(res)
    ensures r.0 ==> r.1 == None
    ensures !res.success ==> r == (false, Some(res.body))
    ensures res.success && !IsUsable(res) ==> r == (false, Some(InvalidSessionResponse))
  {
    if !res.success then (false, Some(res.body))
    else if !IsUsable(res) then (false, Some(InvalidSessionResponse))
    else (true, None)
  }

  /** A refresh is due: there is a session and it is expired. */
  predicate NeedsRefresh(stored: Option<Session>, now: int)
    ensures NeedsRefresh(stored, now) ==> stored.Some? && now > stored.value.issuedAt
  {
    stored.Some? && IsExpired(stored.value, now)
  }

  /**
   * The session a refresh stores, or None when nothing is stored. Expiry is
   * judged at `now`; the answer is stamped at `stampedAt`, the clock read
   * again after the round trip. The new issue time is strictly later than
   * the old one provided the clock has not gone back in between.
   */
  function RefreshedSession(stored: Option<Session>, res: Response, now: int, stampedAt: int): (r: Option<Session>)
    ensures r.Some? <==> NeedsRefresh(stored, now) && IsUsable(res)
    ensures r.Some? ==> r == AcceptedSession(res, stampedAt)
    ensures r.Some? && stampedAt >= now ==> r.value.issuedAt > stored.value.issuedAt
  {
    if NeedsRefresh(stored, now) then AcceptedSession(res, stampedAt) else None
  }

  // ---- Request headers ----

  /** How many headers in `hs` are called `name`; header names ignore case. */
  function CountHeader(hs: seq<Header>, name: string): nat {
    if hs == [] then 0
    else (if EqualsIgnoreCase(hs[0].name, name) then 1 else 0) + CountHeader(hs[1..], name)
  }

  lemma {:induction false} CountHeaderConcat(a: seq<Header>, b: seq<Header>, name: string)
    ensures CountHeader(a + b, name) == CountHeader(a, name) + CountHeader(b, name)
  {
    if a != [] {
      assert (a + b)[1..] == a[1..] + b;
      CountHeaderConcat(a[1..], b, name);
    } else {
      assert a + b == b;
    }
  }

  /**
   * `hs` without the headers called `name` in any letter case; every other
   * header is kept, as often as it occurred.
   */
  function WithoutHeader(hs: seq<Header>, name: string): (r: seq<Header>)
    ensures forall h :: h in r <==> h in hs && !EqualsIgnoreCase(h.name, name)
    ensures forall h: Header :: !EqualsIgnoreCase(h.name, name) ==> multiset(r)[h] == multiset(hs)[h]
    ensures CountHeader(r, name) == 0
    ensures |r| <= |hs|
  {
    if hs == [] then []
    else
      assert hs == [hs[0]] + hs[1..];
      if EqualsIgnoreCase(hs[0].name, name) then WithoutHeader(hs[1..], name)
      else [hs[0]] + WithoutHeader(hs[1..], name)
  }

  /** `AuthenticationHeaderValue("Bearer", token)` as rendered: the scheme alone when the token is empty. */
  function BearerValue(token: string): (v: string)
    ensures token != "" ==> v == "Bearer " + token && v[7..] == token
    ensures token == "" ==> v == "Bearer"
  {
    if token == "" then "Bearer" else "Bearer " + token
  }

  /**
   * The headers after `ApplyAuthHeaders`: the API key and the JSON accept
   * header are appended once more each, and every authorization header, in
   * any letter case, is replaced by one bearer header.
   */
  function Decorated(hs: seq<Header>, anonKey: string, token: string): (r: seq<Header>)
    ensures Header("apikey", anonKey) in r
    ensures Header("Authorization", BearerValue(token)) in r
    ensures Header("Accept", "application/json") in r
    ensures CountHeader(r, "Authorization") == 1
    ensures forall h: Header :: !EqualsIgnoreCase(h.name, "Authorization") ==>
              multiset(r)[h] == multiset(hs)[h] + (if h == Header("apikey", anonKey) then 1 else 0)
                                + (if h == Header("Accept", "application/json") then 1 else 0)
    ensures forall h :: h in r ==>
              (h in hs && !EqualsIgnoreCase(h.name, "Authorization")) || h == Header("apikey", anonKey) ||
              h == Header("Authorization", BearerValue(token)) || h == Header("Accept", "application/json")
  {
    var withKey := hs + [Header("apikey", anonKey)];
    var kept := WithoutHeader(withKey, "Authorization");
    var added := [Header("Authorization", BearerValue(token)), Header("Accept", "application/json")];
    CountHeaderConcat(kept, added, "Authorization");
    assert added[1..] == [Header("Accept", "application/json")] && added[1..][1..] == [];
    assert |"Accept"| != |"Authorization"| && |"apikey"| != |"Authorization"|;
    EqualsIgnoreCaseReflexive("Authorization");
    assert CountHeader(added[1..], "Authorization") == 0;
    assert multiset(kept + added) == multiset(kept) + multiset(added);
    assert multiset(withKey) == multiset(hs) + multiset([Header("apikey", anonKey)]);
    kept + added
  }

  /** The headers of an outgoing application request, updated in place. */
  class OutgoingRequest {
    var headers: seq<Header>

    constructor (headers: seq<Header>)
      ensures this.headers == headers
    {
      this.headers := headers;
    }
  }

  class AuthService {
    const url: string
    const anonKey: string
    const authState: AuthStateProvider
    /** Every request sent to the backend, oldest first. */
    ghost var requests: seq<Request>

    constructor (cfg: Config, authState: AuthStateProvider)
      ensures url == cfg.url && anonKey == cfg.anonKey && this.authState == authState
      ensures requests == []
    {
      url := cfg.url;
      anonKey := cfg.anonKey;
      this.authState := authState;
      requests := [];
    }

    /** The service's constructor, which fails when a setting is missing. */
    static method Create(settings: map<string, string>, authState: AuthStateProvider)
      returns (r: Result<AuthService, string>)
      ensures ReadConfig(settings).Failure? ==> r == Failure(ReadConfig(settings).error)
      ensures ReadConfig(settings).Success? ==>
                r.Success? && fresh(r.value) && r.value.authState == authState &&
                Config(r.value.url, r.value.anonKey) == ReadConfig(settings).value &&
                r.value.requests == []
    {
      var cfg := ReadConfig(settings);
      match cfg
      case Failure(e) => r := Failure(e);
      case Success(c) =>
        var service := new AuthService(c, authState);
        r := Success(service);
    }

    function Cfg(): Config {
      Config(url, anonKey)
    }

    /** `SignUpAsync`: one request; the session is never touched. */
    method SignUp(email: string, password: string, res: Response) returns (ok: bool, error: Option<string>)
      modifies this
      ensures requests == old(requests) + [AuthRequest(Cfg(), SignUpPath, Credentials(email, password))]
      ensures ok == res.success
      ensures error == if res.success then None else Some(res.body)
    {
      requests := requests + [AuthRequest(Cfg(), SignUpPath, Credentials(email, password))];
      if !res.success {
        return false, Some(res.body);
      }
      return true, None;
    }

    /** `SignInAsync`: one request; a usable response is restamped with `now` and stored. */
    method SignIn(email: string, password: string, res: Response, now: int)
      returns (ok: bool, error: Option<string>)
      modifies this, authState
      ensures requests == old(requests) + [AuthRequest(Cfg(), PasswordGrantPath, Credentials(email, password))]
      ensures (ok, error) == SignInReply(res)
      ensures !IsUsable(res) ==> unchanged(authState)
      ensures IsUsable(res) ==>
                authState.stored == AcceptedSession(res, now) &&
                authState.notifications == old(authState.notifications) + [IdentityOf(authState.stored)] &&
                authState.NotifiedCurrent()
    {
      requests := requests + [AuthRequest(Cfg(), PasswordGrantPath, Credentials(email, password))];
      if !res.success {
        return false, Some(res.body);
      }
      var session := res.parsed;
      if session.None? || IsNullOrWhiteSpace(session.value.accessToken) {
        return false, Some(InvalidSessionResponse);
      }
      var stamped := session.value.(issuedAt := now);
      authState.SetSession(stamped);
      return true, None;
    }

    /** `SignOutAsync`: the slot is cleared, whatever it held. */
    method SignOut()
      modifies authState
      ensures authState.stored == None
      ensures authState.notifications == old(authState.notifications) + [Anonymous]
    {
      authState.ClearSession();
    }

    /**
     * `EnsureFreshTokenAsync`: with no session or a fresh one, nothing is
     * sent and nothing changes; with an expired one, its refresh token is
     * sent, and a usable answer is restamped and stored. Expiry is judged at
     * `now` and the answer stamped at `stampedAt`, the two clock readings of
     * the source.
     */
    method EnsureFreshToken(res: Response, now: int, stampedAt: int)
      modifies this, authState
      ensures !NeedsRefresh(old(authState.stored), now) ==> requests == old(requests)
      ensures NeedsRefresh(old(authState.stored), now) ==>
                requests == old(requests) +
                  [AuthRequest(Cfg(), RefreshGrantPath, RefreshToken(old(authState.stored).value.refreshToken))]
      ensures RefreshedSession(old(authState.stored), res, now, stampedAt).None? ==> unchanged(authState)
      ensures RefreshedSession(old(authState.stored), res, now, stampedAt).Some? ==>
                authState.stored == RefreshedSession(old(authState.stored), res, now, stampedAt) &&
                authState.notifications == old(authState.notifications) + [IdentityOf(authState.stored)]
    {
      var session := authState.GetSession();
      if session.None? || !IsExpired(session.value, now) {
        return;
      }
      requests := requests + [AuthRequest(Cfg(), RefreshGrantPath, RefreshToken(session.value.refreshToken))];
      if !res.success {
        return;
      }
      var newSession := res.parsed;
      if newSession.None? || IsNullOrWhiteSpace(newSession.value.accessToken) {
        return;
      }
      authState.SetSession(newSession.value.(issuedAt := stampedAt));
    }

    /** `ApplyAuthHeaders`: decorate an outgoing request in place. */
    method ApplyAuthHeaders(req: OutgoingRequest, accessToken: string)
      modifies req
      ensures req.headers == Decorated(old(req.headers), anonKey, accessToken)
    {
      req.headers := req.headers + [Header("apikey", anonKey)];
      req.headers := WithoutHeader(req.headers, "Authorization") + [Header("Authorization", BearerValue(accessToken))];
      req.headers := req.headers + [Header("Accept", "application/json")];
    }
  }
}
