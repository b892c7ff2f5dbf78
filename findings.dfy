/** The session id after a page reload. `setSessionId` assigns the client's
    `sessionId` only inside the branch that creates the cookie; when the
    cookie is already there it is read and then ignored. */
module SessionFinding {
  import opened FLogTypes
  import opened FLogSpec

  /** As written: on a page whose cookie jar already holds a session id (any
      page load after the first), `init` succeeds, yet the record it then
      flushes carries no session id at all, although the cookie has one. */
  lemma ReloadLeavesSessionIdUnset(cookies: map<string, string>, options: Option<ClientConfig>,
                                   freshTabId: string, freshSessionId: string, log: Log)
    requires SessionCookieSet(cookies) && !EndpointMissing(EffectiveOptions(options))
    ensures var s := Flush(Push(Init(Initial(cookies), options, freshTabId, freshSessionId).next, log));
            && |s.sent| == 1 && |s.sent[0].logs| == 1
            && s.sent[0].logs[0].sessionId == None
            && SessionCookieSet(s.cookies)
  {
  }

  /** Corrected `setSessionId`: the cookie jar changes exactly as in the code,
      and the client's session id is always the one the jar holds. */
  function ResolveSessionIntended(cookies: map<string, string>, freshId: string)
    : (r: (map<string, string>, Option<string>))
    ensures SessionCookie in r.0 && r.1 == Some(r.0[SessionCookie])
    ensures forall current :: r.0 == ResolveSession(cookies, current, freshId).0
    ensures SessionCookieSet(cookies) ==> r.1 == Some(cookies[SessionCookie])
    ensures !SessionCookieSet(cookies) ==> r.1 == Some(freshId)
  {
    var sessionId := if SessionCookieSet(cookies) then cookies[SessionCookie] else freshId;
    (cookies[SessionCookie := sessionId], Some(sessionId))
  }

  /** `init` with the corrected `setSessionId`: the same transition as the
      code's, except that a successful call assigns the session id the cookie
      jar holds afterwards. */
  function InitIntended(s: State, options: Option<ClientConfig>, freshTabId: string, freshSessionId: string)
    : (t: Transition)
    ensures var code := Init(s, options, freshTabId, freshSessionId);
            && t.outcome == code.outcome
            && t.next.(sessionId := code.next.sessionId) == code.next
    ensures !s.initialized && t.outcome == Pass ==>
              SessionCookie in t.next.cookies && t.next.sessionId == Some(t.next.cookies[SessionCookie])
    ensures Consistent(s) ==> Consistent(t.next)
  {
    var code := Init(s, options, freshTabId, freshSessionId);
    if s.initialized || code.outcome.Fail? then code
    else Transition(code.next.(sessionId := ResolveSessionIntended(s.cookies, freshSessionId).1), Pass)
  }

  /** Corrected: on a page whose cookie jar already holds a session id, `init`
      with the corrected resolution, one capture and one flush deliver a
      record carrying the session id the cookie held. */
  lemma IntendedReloadKeepsSessionId(cookies: map<string, string>, options: Option<ClientConfig>,
                                     freshTabId: string, freshSessionId: string, log: Log)
    requires SessionCookieSet(cookies) && !EndpointMissing(EffectiveOptions(options))
    ensures var s := Flush(Push(InitIntended(Initial(cookies), options, freshTabId, freshSessionId).next, log));
            && |s.sent| == 1 && |s.sent[0].logs| == 1
            && s.sent[0].logs[0].sessionId == Some(cookies[SessionCookie])
            && s.cookies == cookies
  {
  }
}
