/**
 * backend/middleware/session.py: how a request finds its session (header first, then
 * cookie), creates one when allowed, and what the response carries back. Request
 * headers are given with lower-case names, as Starlette compares them case-blind.
 */
module SessionMiddleware {
  import opened Wrappers
  import opened PyStrings
  import opened JsonValue
  import opened Sessions

  /** The constructor arguments of `SessionMiddleware`. */
  datatype MiddlewareConfig = MiddlewareConfig(cookieName: string, headerName: string, autoCreateSession: bool)

  const DefaultConfig: MiddlewareConfig := MiddlewareConfig("session_id", "X-Session-ID", true)

  /** What the model reads of a request: headers (lower-case names), `request.cookies` as the already
      parsed dictionary (so its names are distinct and lookup by name is unambiguous; which of two
      duplicate `Cookie` entries the web framework keeps is not part of this model), and
      `request.client.host`. */
  datatype Request = Request(headers: seq<(string, string)>, cookies: seq<(string, string)>, clientHost: Option<string>)

  /** `request.headers.get(name)` */
  function Header(req: Request, name: string): (r: Option<string>) {
    Get(req.headers, Lower(name))
  }

  /** A header that is present and non-empty. */
  predicate HasValue(v: Option<string>) {
    v.Some? && v.value != ""
  }

  /** `_extract_session_id`: a non-empty header wins, otherwise whatever the cookie holds. */
  function ExtractSessionId(mw: MiddlewareConfig, req: Request): (r: Option<string>)
    ensures HasValue(Header(req, mw.headerName)) ==> r == Header(req, mw.headerName)
    ensures !HasValue(Header(req, mw.headerName)) ==> r == Get(req.cookies, mw.cookieName)
  {
    var fromHeader := Header(req, mw.headerName);
    if HasValue(fromHeader) then fromHeader else Get(req.cookies, mw.cookieName)
  }

  /** `_get_client_ip` */
  function ClientIp(req: Request): (r: string)
    ensures HasValue(Header(req, "x-forwarded-for")) ==>
      r == Strip(Split(Header(req, "x-forwarded-for").value, ',')[0])
  {
    var forwarded := Header(req, "x-forwarded-for");
    if HasValue(forwarded) then Strip(Split(forwarded.value, ',')[0])
    else
      var realIp := Header(req, "x-real-ip");
      if HasValue(realIp) then realIp.value
      else if req.clientHost.Some? then req.clientHost.value
      else "unknown"
  }

  /** Without `x-forwarded-for`, the fallbacks are taken in order. */
  lemma ClientIpFallbacks(req: Request)
    requires !HasValue(Header(req, "x-forwarded-for"))
    ensures HasValue(Header(req, "x-real-ip")) ==> ClientIp(req) == Header(req, "x-real-ip").value
    ensures !HasValue(Header(req, "x-real-ip")) && req.clientHost.Some? ==> ClientIp(req) == req.clientHost.value
    ensures !HasValue(Header(req, "x-real-ip")) && req.clientHost.None? ==> ClientIp(req) == "unknown"
  {
  }

  /** Only the first hop of a forwarded chain is kept, without its surrounding blanks. */
  lemma ClientIpFirstHop(req: Request, first: string, rest: string)
    requires ',' !in first && Header(req, "x-forwarded-for") == Some(first + [','] + rest)
    ensures ClientIp(req) == Strip(first)
  {
    SplitAt(first, ',', rest);
  }

  /** The metadata a new session starts with: the user agent, the client IP and the referer, empty when absent. */
  function NewSessionMetadata(req: Request): (r: Fields)
    ensures |r| == 3 && DistinctKeys(r)
    ensures Get(r, "user_agent") == Some(JStr(Header(req, "user-agent").GetOr("")))
    ensures Get(r, "ip_address") == Some(JStr(ClientIp(req)))
    ensures Get(r, "referer") == Some(JStr(Header(req, "referer").GetOr("")))
  {
    var r := [("user_agent", JStr(Header(req, "user-agent").GetOr(""))),
              ("ip_address", JStr(ClientIp(req))),
              ("referer", JStr(Header(req, "referer").GetOr("")))];
    GetAt(r, 0);
    GetAt(r, 1);
    GetAt(r, 2);
    r
  }

  /** The session cookie as `set_cookie` is told to write it. */
  datatype Cookie = Cookie(name: string, value: string, httpOnly: bool, secure: bool, sameSite: string, maxAge: int)

  /** What the middleware adds to the response. */
  datatype ResponseHeaders = ResponseHeaders(sessionHeader: Option<(string, string)>, cookie: Option<Cookie>)

  /**
   * The response decision: the session header whenever there is a session, and the
   * cookie only when the incoming id was missing or names another session.
   */
  function ResponseFor(mw: MiddlewareConfig, incoming: Option<string>, session: Option<string>, maxAgeHours: int)
    : (r: ResponseHeaders)
    ensures session.None? ==> r == ResponseHeaders(None, None)
    ensures session.Some? ==> r.sessionHeader == Some((mw.headerName, session.value))
    ensures r.cookie.Some? <==> session.Some? && (!HasValue(incoming) || incoming.value != session.value)
    ensures r.cookie.Some? ==>
      r.cookie.value == Cookie(mw.cookieName, session.value, true, false, "lax", maxAgeHours * 3600)
  {
    if session.None? then ResponseHeaders(None, None)
    else
      var cookie :=
        if !HasValue(incoming) || incoming.value != session.value
        then Some(Cookie(mw.cookieName, session.value, true, false, "lax", maxAgeHours * 3600))
        else None;
      ResponseHeaders(Some((mw.headerName, session.value)), cookie)
  }

  /** A returning client that sent its own session id gets no new cookie. */
  lemma NoCookieForKnownSession(mw: MiddlewareConfig, id: string, maxAgeHours: int)
    requires id != ""
    ensures ResponseFor(mw, Some(id), Some(id), maxAgeHours).cookie == None
  {
  }

  /** The session the incoming id names in the store, if any. */
  function Found(store: map<string, UserSession>, incoming: Option<string>): (r: Option<UserSession>) {
    if HasValue(incoming) && incoming.value in store then Some(store[incoming.value]) else None
  }

  /**
   * The decisions of `dispatch` around `call_next`: a stored session named by the request
   * is reused and touched; otherwise one is created only when auto-creation is on. The
   * session attached to the request and the response headers are returned; `freshId`
   * stands for the generated UUID.
   */
  method Dispatch(store: SessionStore, mw: MiddlewareConfig, req: Request, freshId: string, now: int, maxAgeHours: int)
    returns (attached: Option<UserSession>, response: ResponseHeaders)
    requires store.Valid()
    modifies store, store.sessions.Values
    ensures store.Valid()
    ensures var found := Found(old(store.sessions), ExtractSessionId(mw, req));
      (found.Some? ==> attached == found && attached.value.lastActivity == now && store.sessions == old(store.sessions))
      && (found.None? && mw.autoCreateSession ==>
            attached.Some? && fresh(attached.value)
            && attached.value.sessionId == freshId && attached.value.metadata == NewSessionMetadata(req)
            && attached.value.createdAt == now && attached.value.lastActivity == now
            && attached.value.userActions == []
            && store.sessions == old(store.sessions)[freshId := attached.value])
      && (found.None? && !mw.autoCreateSession ==> attached == None && store.sessions == old(store.sessions))
      && (forall s :: s in old(store.sessions.Values) && Some(s) != found ==> s.lastActivity == old(s.lastActivity))
    ensures forall s :: s in old(store.sessions.Values) ==>
      s.userActions == old(s.userActions) && s.metadata == old(s.metadata)
    ensures response == ResponseFor(mw, ExtractSessionId(mw, req),
                                    if attached.Some? then Some(attached.value.sessionId) else None, maxAgeHours)
  {
    var incoming := ExtractSessionId(mw, req);
    attached := None;
    if HasValue(incoming) {
      attached := store.GetSession(incoming.value);
      if attached.Some? {
        attached.value.UpdateActivity(now);
      }
    }
    if attached.None? && mw.autoCreateSession {
      var s := store.CreateSession(Some(NewSessionMetadata(req)), freshId, now);
      attached := Some(s);
    }
    response := ResponseFor(mw, incoming, if attached.Some? then Some(attached.value.sessionId) else None, maxAgeHours);
  }

  /** `getattr(request.state, "session", None)`: a state without a session reads as `None`. */
  function GetSession(stateSession: Option<UserSession>): (r: Option<UserSession>) {
    stateSession
  }

  /** `require_session` */
  function RequireSession(stateSession: Option<UserSession>): (r: Result<UserSession, PyError>)
    ensures r.Err? <==> GetSession(stateSession).None?
    ensures r.Err? ==> r.error == ValueError("No active session found")
    ensures r.Ok? ==> r.value == stateSession.value
  {
    match GetSession(stateSession)
    case None => Err(ValueError("No active session found"))
    case Some(s) => Ok(s)
  }
}
